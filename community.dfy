/** The community board (components/Community.tsx): anonymous codenames, the
    stored message list and the two-step post (submit, then completion when
    the 1.2-second timer fires). `localStorage` is a map field holding the
    stored list itself; `Math.random` draws are parameters. */
module Community {
  import opened Wrappers
  import opened JsText
  import opened Types

  // -------------------------------------------------------------- codenames

  const Adjectives: seq<string> := ["Neon", "Cyber", "Quant", "Alpha", "SME", "Bull", "Void", "Lunar", "Global", "Prime"]
  const Nouns: seq<string> := ["Hunter", "Rider", "Whale", "Prophet", "Node", "Pulse", "Ape", "Analyst", "Seeker", "Ghost"]

  /** A `Math.random()` draw. */
  predicate IsDraw(d: real) {
    0.0 <= d < 1.0
  }

  /** `Math.floor(d * n)` for a draw `d`: an index below `n`. */
  function Pick(d: real, n: nat): (k: nat)
    requires IsDraw(d) && n > 0
    ensures k < n
  {
    var x := d * n as real;
    assert 0.0 <= x < n as real;
    x.Floor
  }

  /** `Math.floor(100 + d * 899)`: a number from 100 to 998. */
  function TagNumber(d: real): (n: nat)
    requires IsDraw(d)
    ensures 100 <= n <= 998
  {
    100 + Pick(d, 899)
  }

  /** `generateCodename()`: `"<adjective> <noun> #<number>"`. */
  function GenerateCodename(d1: real, d2: real, d3: real): string
    requires IsDraw(d1) && IsDraw(d2) && IsDraw(d3)
  {
    Adjectives[Pick(d1, 10)] + " " + Nouns[Pick(d2, 10)] + " #" + NatToString(TagNumber(d3))
  }

  lemma NoSpaceInWords()
    ensures forall k :: 0 <= k < |Adjectives| ==> ' ' !in Adjectives[k]
    ensures forall k :: 0 <= k < |Nouns| ==> ' ' !in Nouns[k]
  {
  }

  /** A codename splits on spaces into exactly three words: an adjective of
      the list, a noun of the list, and `#` followed by the decimal digits
      of a number from 100 to 998. Its first word, whose initial the avatar
      shows, is the adjective. */
  lemma CodenameShape(d1: real, d2: real, d3: real)
    requires IsDraw(d1) && IsDraw(d2) && IsDraw(d3)
    ensures var words := Split(GenerateCodename(d1, d2, d3), ' ');
      && |words| == 3
      && words[0] in Adjectives && words[1] in Nouns
      && |words[2]| >= 2 && words[2][0] == '#'
      && (forall m :: 1 <= m < |words[2]| ==> IsDigit(words[2][m]))
      && 100 <= DigitsValue(words[2][1..]) <= 998
  {
    var adj := Adjectives[Pick(d1, 10)];
    var noun := Nouns[Pick(d2, 10)];
    var num := TagNumber(d3);
    var tag := "#" + NatToString(num);
    NoSpaceInWords();
    assert ' ' !in tag by {
      forall m | 0 <= m < |tag| ensures tag[m] != ' ' {
        if m > 0 { assert tag[m] == NatToString(num)[m - 1]; }
      }
    }
    assert GenerateCodename(d1, d2, d3) == adj + [' '] + (noun + [' '] + tag);
    SplitAfterWord(adj, ' ', noun + [' '] + tag);
    SplitAfterWord(noun, ' ', tag);
    SplitWithoutSeparator(tag, ' ');
    assert tag[1..] == NatToString(num);
    NatToStringRoundTrip(num);
  }

  // ----------------------------------------------------------------- posts

  /** A stored message: a `CommunityMessage` with its author's codename. */
  datatype Post = Post(message: CommunityMessage, codename: string)

  const StorageKey: string := "nivesh_community_v3"

  /** The two messages shown when nothing is stored. */
  const Seeds: seq<Post> := [
    Post(CommunityMessage("1", "The AI risk scoring is a game changer for retail. Can we get a \"Compare\" feature for SME vs Mainboard stats?", "2 hours ago", Suggestion), "Alpha Seeker #882"),
    Post(CommunityMessage("2", "Design is 10/10. Dark mode is very easy on the eyes during late-night market research.", "5 hours ago", Feedback), "Cyber Whale #104")
  ]

  /** What the timer closure captured at submit time: the draft, the channel
      and the list as they were then. */
  datatype Pending = Pending(text: string, channel: MessageType, base: seq<Post>)

  /** The message a completed post adds. */
  function NewPost(p: Pending, id: string, d1: real, d2: real, d3: real): (r: Post)
    requires IsDraw(d1) && IsDraw(d2) && IsDraw(d3)
    ensures r.message.text == p.text && r.message.msgType == p.channel
    ensures r.message.timestamp == "Just now" && r.message.id == id
  {
    Post(CommunityMessage(id, p.text, "Just now", p.channel), GenerateCodename(d1, d2, d3))
  }

  class Board {
    var messages: seq<Post>
    var draft: string
    var channel: MessageType
    var transmitting: bool
    var pending: Option<Pending>
    var storage: map<string, seq<Post>>

    /** A post is in flight exactly while the board is transmitting. */
    predicate Valid()
      reads this
    {
      transmitting <==> pending.Some?
    }

    constructor (stored: map<string, seq<Post>>)
      ensures Valid()
      ensures messages == [] && draft == "" && channel == Suggestion && !transmitting
      ensures storage == stored
    {
      messages := [];
      draft := "";
      channel := Suggestion;
      transmitting := false;
      pending := None;
      storage := stored;
    }

    /** The mount effect: the stored list when there is one, else the two
        seed messages. */
    method Load()
      modifies this
      requires Valid()
      ensures Valid()
      ensures messages == if StorageKey in storage then storage[StorageKey] else Seeds
      ensures draft == old(draft) && channel == old(channel) && transmitting == old(transmitting)
      ensures pending == old(pending) && storage == old(storage)
    {
      if StorageKey in storage {
        messages := storage[StorageKey];
      } else {
        messages := Seeds;
      }
    }

    /** Typing in the text area. */
    method Edit(text: string)
      modifies this
      requires Valid()
      ensures Valid()
      ensures draft == text
      ensures messages == old(messages) && channel == old(channel) && transmitting == old(transmitting)
      ensures pending == old(pending) && storage == old(storage)
    {
      draft := text;
    }

    /** `handleTypeChange`: only the selected channel changes. */
    method TypeChange(t: MessageType)
      modifies this
      requires Valid()
      ensures Valid()
      ensures channel == t
      ensures messages == old(messages) && draft == old(draft) && transmitting == old(transmitting)
      ensures pending == old(pending) && storage == old(storage)
    {
      channel := t;
    }

    /** `handleSubmit`: ignored for a blank draft or while a post is in
        flight; otherwise transmission starts and the timer captures the
        draft, the channel and the list. */
    method Submit()
      modifies this
      requires Valid()
      ensures Valid()
      ensures IsBlank(old(draft)) || old(transmitting) ==>
        transmitting == old(transmitting) && pending == old(pending)
      ensures !IsBlank(old(draft)) && !old(transmitting) ==>
        transmitting && pending == Some(Pending(old(draft), old(channel), old(messages)))
      ensures messages == old(messages) && draft == old(draft) && channel == old(channel)
      ensures storage == old(storage)
    {
      TrimIsEmptyIffBlank(draft);
      if Trim(draft) == "" || transmitting {
        return;
      }
      transmitting := true;
      pending := Some(Pending(draft, channel, messages));
    }

    /** The timer firing: the new message goes first, the captured list
        follows unchanged, storage holds exactly the new list, the draft is
        cleared and transmission ends. With nothing in flight it does
        nothing. */
    method Complete(id: string, d1: real, d2: real, d3: real)
      modifies this
      requires Valid()
      requires IsDraw(d1) && IsDraw(d2) && IsDraw(d3)
      ensures Valid()
      ensures old(pending).Some? ==>
        && messages == [NewPost(old(pending).value, id, d1, d2, d3)] + old(pending).value.base
        && storage == old(storage)[StorageKey := messages]
        && draft == "" && !transmitting && pending.None?
      ensures old(pending).None? ==>
        messages == old(messages) && storage == old(storage) && draft == old(draft)
        && transmitting == old(transmitting) && pending == old(pending)
      ensures channel == old(channel)
    {
      if pending.Some? {
        var updated := [NewPost(pending.value, id, d1, d2, d3)] + pending.value.base;
        messages := updated;
        storage := storage[StorageKey := updated];
        draft := "";
        transmitting := false;
        pending := None;
      }
    }
  }

  /** A post on a freshly loaded board during which the user switches
      channel and keeps typing: the message carries the text and channel of
      the moment of submission, goes before the earlier messages, and the
      text typed meanwhile is cleared. */
  method PostWhileEditing(stored: map<string, seq<Post>>, text: string, later: string, id: string,
                          d1: real, d2: real, d3: real)
    returns (shown: seq<Post>, saved: seq<Post>, draft: string)
    requires !IsBlank(text)
    requires IsDraw(d1) && IsDraw(d2) && IsDraw(d3)
    ensures |shown| >= 1 && shown[0].message.text == text && shown[0].message.msgType == Suggestion
    ensures shown[1..] == if StorageKey in stored then stored[StorageKey] else Seeds
    ensures saved == shown && draft == ""
  {
    var board := new Board(stored);
    board.Load();
    board.Edit(text);
    board.Submit();
    board.TypeChange(General);
    board.Edit(later);
    board.Submit();
    board.Complete(id, d1, d2, d3);
    shown := board.messages;
    saved := board.storage[StorageKey];
    draft := board.draft;
  }
}
