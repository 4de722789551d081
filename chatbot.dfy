/** The chat panel (components/ChatBot.tsx): the rendering of a reply into
    paragraphs, bold runs and bullets, and the send/receive cycle of the
    conversation. The assistant call itself is outside the model: a send
    hands back the request, and the reply (or its failure) is an input of
    the receiving step. */
module ChatBot {
  import opened Wrappers
  import opened JsText
  import opened Types
  import opened GeminiService

  // -------------------------------------------------------- bold segments

  /** The characters `.` does not match in a JavaScript regex. */
  predicate IsLineTerminator(c: char) {
    c == '\n' || c == '\r' || c == '\U{2028}' || c == '\U{2029}'
  }

  predicate NoTerminator(s: string, i: nat, j: nat)
    requires i <= j <= |s|
  {
    forall m :: i <= m < j ==> !IsLineTerminator(s[m])
  }

  const Stars: string := "**"

  /** Where `/\*\*.*?\*\*​/` matches when tried at `q`: two stars, then the
      nearest two stars after them, with no line terminator in between. */
  function BoldEnd(s: string, q: nat): (e: Option<nat>)
    requires q <= |s|
    ensures e.Some? ==> q + 4 <= e.value <= |s|
  {
    if !OccursAt(s, Stars, q) then None
    else match FindFrom(s, Stars, q + 2)
      case None => None
      case Some(k) => if NoTerminator(s, q + 2, k) then Some(k + 2) else None
  }

  /** `s.split(/(\*\*.*?\*\*​/)` from position `q`, the current piece
      starting at `p`: each match closes the piece before it and is kept
      as a part of its own; what follows the last match is the last part. */
  function SplitFrom(s: string, p: nat, q: nat): seq<string>
    requires p <= q <= |s|
    decreases |s| - q
  {
    if q == |s| then [s[p..]]
    else match BoldEnd(s, q)
      case Some(e) => [s[p..q], s[q..e]] + SplitFrom(s, e, e)
      case None => SplitFrom(s, p, q + 1)
  }

  function SplitBold(line: string): seq<string> {
    SplitFrom(line, 0, 0)
  }

  function Concat(parts: seq<string>): string
    decreases |parts|
  {
    if |parts| == 0 then "" else parts[0] + Concat(parts[1..])
  }

  lemma {:induction false} ConcatAppend(a: seq<string>, b: seq<string>)
    ensures Concat(a + b) == Concat(a) + Concat(b)
    decreases |a|
  {
    if |a| > 0 {
      assert (a + b)[1..] == a[1..] + b;
      ConcatAppend(a[1..], b);
    } else {
      assert a + b == b;
    }
  }

  /** A matched run: two stars, a text without line terminators in which
      two stars never start, two stars. */
  predicate BoldToken(t: string) {
    && |t| >= 4 && t[..2] == Stars && t[|t| - 2..] == Stars
    && (forall m :: 2 <= m < |t| - 2 ==> !IsLineTerminator(t[m]))
    && (forall m :: 2 <= m < |t| - 2 ==> !OccursAt(t, Stars, m))
  }

  lemma BoldEndToken(s: string, q: nat)
    requires q <= |s| && BoldEnd(s, q).Some?
    ensures BoldToken(s[q..BoldEnd(s, q).value])
  {
    var e := BoldEnd(s, q).value;
    var k := e - 2;
    var t := s[q..e];
    assert OccursAt(s, Stars, q) && OccursAt(s, Stars, k);
    assert t[..2] == s[q..q + 2];
    assert t[|t| - 2..] == s[k..k + 2];
    forall m | 2 <= m < |t| - 2 ensures !OccursAt(t, Stars, m) {
      assert t[m..m + 2] == s[q + m..q + m + 2];
      assert !OccursAt(s, Stars, q + m);
    }
    forall m | 2 <= m < |t| - 2 ensures !IsLineTerminator(t[m]) {
      assert t[m] == s[q + m];
    }
  }

  lemma ConcatPair(a: string, b: string, rest: seq<string>)
    ensures Concat([a, b] + rest) == a + (b + Concat(rest))
  {
    assert ([a, b] + rest)[1..] == [b] + rest;
    assert ([b] + rest)[1..] == rest;
  }

  /** Putting a plain piece and a matched run in front of an alternating
      list keeps it alternating. */
  lemma ConsPair(pre: string, tok: string, rest: seq<string>)
    requires BoldToken(tok) && |rest| % 2 == 1
    requires forall i :: 0 <= i < |rest| && i % 2 == 1 ==> BoldToken(rest[i])
    ensures |[pre, tok] + rest| % 2 == 1
    ensures forall i :: 0 <= i < |[pre, tok] + rest| && i % 2 == 1 ==> BoldToken(([pre, tok] + rest)[i])
  {
    var parts := [pre, tok] + rest;
    forall i | 0 <= i < |parts| && i % 2 == 1 ensures BoldToken(parts[i]) {
      if i > 1 { assert parts[i] == rest[i - 2]; }
    }
  }

  lemma SliceThree(s: string, p: nat, q: nat, e: nat)
    requires p <= q <= e <= |s|
    ensures s[p..] == s[p..q] + (s[q..e] + s[e..])
  {
  }

  /** The split loses nothing: the parts concatenate to the rest of the line. */
  lemma {:induction false} SplitFromConcat(s: string, p: nat, q: nat)
    requires p <= q <= |s|
    ensures Concat(SplitFrom(s, p, q)) == s[p..]
    decreases |s| - q
  {
    if q == |s| {
      assert Concat([s[p..]]) == s[p..] + Concat([]);
    } else if BoldEnd(s, q).Some? {
      var e := BoldEnd(s, q).value;
      var rest := SplitFrom(s, e, e);
      assert SplitFrom(s, p, q) == [s[p..q], s[q..e]] + rest;
      SplitFromConcat(s, e, e);
      ConcatPair(s[p..q], s[q..e], rest);
      SliceThree(s, p, q, e);
    } else {
      assert SplitFrom(s, p, q) == SplitFrom(s, p, q + 1);
      SplitFromConcat(s, p, q + 1);
    }
  }

  /** The parts alternate between plain text and matched runs, so there is
      an odd number of them and every odd-indexed part is a matched run. */
  lemma {:induction false} SplitFromAlternates(s: string, p: nat, q: nat)
    requires p <= q <= |s|
    ensures |SplitFrom(s, p, q)| % 2 == 1
    ensures forall i :: 0 <= i < |SplitFrom(s, p, q)| && i % 2 == 1 ==> BoldToken(SplitFrom(s, p, q)[i])
    decreases |s| - q
  {
    if q < |s| && BoldEnd(s, q).Some? {
      var e := BoldEnd(s, q).value;
      var rest := SplitFrom(s, e, e);
      assert SplitFrom(s, p, q) == [s[p..q], s[q..e]] + rest;
      SplitFromAlternates(s, e, e);
      BoldEndToken(s, q);
      ConsPair(s[p..q], s[q..e], rest);
    } else if q < |s| {
      assert SplitFrom(s, p, q) == SplitFrom(s, p, q + 1);
      SplitFromAlternates(s, p, q + 1);
    }
  }

  /** The split of a whole line: lossless, alternating, odd-indexed parts
      matched runs. */
  lemma SplitBoldSpec(line: string)
    ensures Concat(SplitBold(line)) == line
    ensures |SplitBold(line)| % 2 == 1
    ensures forall i :: 0 <= i < |SplitBold(line)| && i % 2 == 1 ==> BoldToken(SplitBold(line)[i])
  {
    SplitFromConcat(line, 0, 0);
    SplitFromAlternates(line, 0, 0);
    assert line[0..] == line;
  }

  /** An empty line splits into one empty part. */
  lemma EmptyLineOnePart()
    ensures SplitBold("") == [""]
  {
  }

  // ------------------------------------------------------------ rendering

  datatype Piece = Plain(text: string) | Bold(text: string)

  /** `part.slice(2, -2)`: empty when the part has fewer than four characters. */
  function Inner(part: string): string {
    if |part| >= 4 then part[2..|part| - 2] else ""
  }

  /** A part is bold exactly when it starts and ends with two stars; its text
      then drops two characters at each end. */
  function RenderPart(part: string): (r: Piece)
    ensures r.Bold? <==> StartsWith(part, Stars) && EndsWith(part, Stars)
    ensures r.Plain? ==> r.text == part
    ensures r.Bold? && |part| >= 4 ==> Stars + r.text + Stars == part
    ensures r.Bold? && |part| < 4 ==> r.text == ""
  {
    if StartsWith(part, Stars) && EndsWith(part, Stars) then Bold(Inner(part)) else Plain(part)
  }

  /** Every matched run renders bold, with its stars stripped. */
  lemma MatchedRunsRenderBold(t: string)
    requires BoldToken(t)
    ensures RenderPart(t) == Bold(t[2..|t| - 2])
  {
  }

  /** Two or three stars alone also count as bold, with empty text. */
  lemma BareStarsRenderEmptyBold()
    ensures RenderPart("**") == Bold("")
    ensures RenderPart("***") == Bold("")
  {
    assert StartsWith("***", Stars) && EndsWith("***", Stars) by {
      assert "***"[..2] == Stars && "***"[1..] == Stars;
    }
  }

  function RenderParts(parts: seq<string>): (r: seq<Piece>)
    ensures |r| == |parts|
    ensures forall i :: 0 <= i < |parts| ==> r[i] == RenderPart(parts[i])
    decreases |parts|
  {
    if |parts| == 0 then [] else [RenderPart(parts[0])] + RenderParts(parts[1..])
  }

  /** `line.trim().startsWith('-') || line.trim().startsWith('*')`. */
  predicate IsBullet(line: string) {
    StartsWith(Trim(line), "-") || StartsWith(Trim(line), "*")
  }

  /** A line is a bullet exactly when its first non-blank character is a
      dash or a star, so a line that opens with a bold run is a bullet too. */
  lemma BulletIffFirstMark(line: string)
    ensures IsBullet(line) <==> FirstNonBlank(line) == Some('-') || FirstNonBlank(line) == Some('*')
  {
    TrimIsEmptyIffBlank(line);
  }

  lemma BoldOpeningIsBullet(line: string)
    requires StartsWith(line, Stars)
    ensures IsBullet(line)
  {
    assert line[0] == '*';
    assert FirstNonBlank(line) == Some('*');
    BulletIffFirstMark(line);
  }

  datatype Paragraph = Paragraph(bullet: bool, pieces: seq<Piece>)

  function RenderLines(lines: seq<string>): (r: seq<Paragraph>)
    ensures |r| == |lines|
    ensures forall k :: 0 <= k < |lines| ==>
      r[k] == Paragraph(IsBullet(lines[k]), RenderParts(SplitBold(lines[k])))
    decreases |lines|
  {
    if |lines| == 0 then []
    else [Paragraph(IsBullet(lines[0]), RenderParts(SplitBold(lines[0])))] + RenderLines(lines[1..])
  }

  /** `FormattedMessage`: one paragraph per line of the text. */
  function FormattedMessage(text: string): seq<Paragraph> {
    RenderLines(Split(text, '\n'))
  }

  /** One paragraph per line, in order: the lines join back to the text, no
      line holds a newline, and the k-th paragraph is the k-th line. */
  lemma FormattedMessageFollowsLines(text: string)
    ensures |FormattedMessage(text)| == |Split(text, '\n')| >= 1
    ensures Join(Split(text, '\n'), '\n') == text
    ensures forall k :: 0 <= k < |Split(text, '\n')| ==>
      '\n' !in Split(text, '\n')[k]
      && FormattedMessage(text)[k].bullet == IsBullet(Split(text, '\n')[k])
      && |FormattedMessage(text)[k].pieces| == |SplitBold(Split(text, '\n')[k])|
  {
    SplitJoin(text, '\n');
  }

  // ------------------------------------------------------- the conversation

  datatype Role = User | Ai

  datatype ChatMessage = ChatMessage(role: Role, text: string, sources: Option<seq<GroundingSource>>)

  /** One entry of the history handed to the assistant. */
  datatype HistoryEntry = HistoryEntry(role: string, text: string)

  function RoleName(r: Role): string {
    match r
    case User => "user"
    case Ai => "model"
  }

  /** The role names are distinct, so the history keeps who said what. */
  lemma RoleNamesDistinct()
    ensures RoleName(User) != RoleName(Ai)
  {
    assert RoleName(User)[0] != RoleName(Ai)[0];
  }

  /** `messages.map(m => ({ role, parts: [{ text }] }))`. */
  function History(ms: seq<ChatMessage>): (h: seq<HistoryEntry>)
    ensures |h| == |ms|
    ensures forall k :: 0 <= k < |ms| ==> h[k].text == ms[k].text && h[k].role == RoleName(ms[k].role)
    decreases |ms|
  {
    if |ms| == 0 then [] else [HistoryEntry(RoleName(ms[0].role), ms[0].text)] + History(ms[1..])
  }

  /** What a send asks the assistant: the message and the earlier history. */
  datatype ChatRequest = ChatRequest(message: string, history: seq<HistoryEntry>)

  /** What the assistant answers. */
  datatype ChatReply = ChatReply(text: string, sources: seq<GroundingSource>)

  /** `overrideMsg || input`. */
  function MessageToSend(overrideMsg: Option<string>, input: string): string {
    if overrideMsg.Some? && overrideMsg.value != "" then overrideMsg.value else input
  }

  /** `m.sources.slice(0, 3)` when there are sources: at most the first three. */
  function VisibleSources(m: ChatMessage): (r: seq<GroundingSource>)
    ensures |r| <= 3
    ensures m.sources.Some? ==> |r| == if |m.sources.value| < 3 then |m.sources.value| else 3
    ensures m.sources.Some? ==> r == m.sources.value[..|r|]
    ensures m.sources.None? ==> r == []
  {
    if m.sources.None? then []
    else if |m.sources.value| <= 3 then m.sources.value
    else m.sources.value[..3]
  }

  class ChatPanel {
    var messages: seq<ChatMessage>
    var input: string
    var isLoading: bool
    var micError: Option<string>

    constructor ()
      ensures messages == [] && input == "" && !isLoading && micError.None?
    {
      messages := [];
      input := "";
      isLoading := false;
      micError := None;
    }

    /** The synchronous part of `handleSend`: nothing happens for a blank
        message or while loading; otherwise the input and the microphone
        error are cleared, the user's message is appended and loading
        starts. The request carries the history from before the append. */
    method Send(overrideMsg: Option<string>) returns (request: Option<ChatRequest>)
      modifies this
      ensures var msg := MessageToSend(overrideMsg, old(input));
        if IsBlank(msg) || old(isLoading) then
          && request.None?
          && messages == old(messages) && input == old(input)
          && isLoading == old(isLoading) && micError == old(micError)
        else
          && request == Some(ChatRequest(msg, History(old(messages))))
          && messages == old(messages) + [ChatMessage(User, msg, None)]
          && input == "" && micError.None? && isLoading
    {
      var msg := MessageToSend(overrideMsg, input);
      TrimIsEmptyIffBlank(msg);
      if Trim(msg) == "" || isLoading {
        return None;
      }
      input := "";
      micError := None;
      var history := History(messages);
      messages := messages + [ChatMessage(User, msg, None)];
      isLoading := true;
      request := Some(ChatRequest(msg, history));
    }

    /** The rest of `handleSend`, once the assistant call settles: a reply
        is appended as an AI message and loading ends; a failed call leaves
        everything as it is, loading included. It runs only after a send
        that went through, so loading is on. */
    method Receive(reply: Option<ChatReply>)
      modifies this
      requires isLoading
      ensures reply.Some? ==> messages == old(messages) + [ChatMessage(Ai, reply.value.text, Some(reply.value.sources))]
      ensures reply.Some? ==> !isLoading
      ensures reply.None? ==> messages == old(messages) && isLoading == old(isLoading)
      ensures input == old(input) && micError == old(micError)
    {
      if reply.Some? {
        messages := messages + [ChatMessage(Ai, reply.value.text, Some(reply.value.sources))];
        isLoading := false;
      }
    }
  }

  /** A full exchange on a fresh panel: a blank question sends nothing and
      shows nothing; otherwise the question and the answer are the two
      messages, the history sent was empty, and loading is over. */
  method Exchange(question: string, reply: ChatReply) returns (sent: Option<ChatRequest>, shown: seq<ChatMessage>, loading: bool)
    ensures IsBlank(question) ==> sent.None? && shown == [] && !loading
    ensures !IsBlank(question) ==>
      && sent == Some(ChatRequest(question, []))
      && shown == [ChatMessage(User, question, None), ChatMessage(Ai, reply.text, Some(reply.sources))]
      && !loading
  {
    var panel := new ChatPanel();
    panel.input := question;
    sent := panel.Send(None);
    if sent.Some? {
      panel.Receive(Some(reply));
    }
    shown := panel.messages;
    loading := panel.isLoading;
  }
}
