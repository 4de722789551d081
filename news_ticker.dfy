/** The news ticker (components/NewsTicker.tsx): the list is shown twice in
    a row so the marquee can wrap, each row keyed by the item's id and its
    position. */
module NewsTicker {
  import opened Wrappers
  import opened JsText
  import opened Types

  /** `[...news, ...news]`: the list followed by itself. */
  function DoubleNews(news: seq<MarketNews>): (d: seq<MarketNews>)
    ensures |d| == 2 * |news|
    ensures forall i :: 0 <= i < |news| ==> d[i] == news[i] && d[i + |news|] == news[i]
  {
    news + news
  }

  /** `` `${item.id}-${idx}` ``. */
  function RowKey(id: string, idx: nat): string {
    id + "-" + NatToString(idx)
  }

  datatype Row = Row(key: string, item: MarketNews)

  function Rows(items: seq<MarketNews>): (r: seq<Row>)
    ensures |r| == |items|
    ensures forall i :: 0 <= i < |items| ==> r[i].item == items[i] && r[i].key == RowKey(items[i].id, i)
  {
    seq(|items|, i requires 0 <= i < |items| => Row(RowKey(items[i].id, i), items[i]))
  }

  /** The ticker: nothing for an empty list, else one row per item of the
      doubled list. */
  function Render(news: seq<MarketNews>): (r: Option<seq<Row>>)
    ensures r.None? <==> |news| == 0
    ensures r.Some? ==> |r.value| == 2 * |news|
  {
    if |news| == 0 then None else Some(Rows(DoubleNews(news)))
  }

  /** The position is recoverable from a key: it is the text after the
      key's last dash, whatever dashes the id holds. */
  lemma RowKeyIndex(id: string, idx: nat)
    ensures AfterLast(RowKey(id, idx), '-') == NatToString(idx)
  {
    assert '-' !in NatToString(idx) by {
      forall m | 0 <= m < |NatToString(idx)| ensures NatToString(idx)[m] != '-' {
        assert IsDigit(NatToString(idx)[m]);
      }
    }
    assert RowKey(id, idx) == id + ['-'] + NatToString(idx);
    AfterLastOfJoin(id, '-', NatToString(idx));
  }

  /** Rows at different positions have different keys, even though every
      item appears twice. */
  lemma RowKeysDistinct(news: seq<MarketNews>)
    requires |news| > 0
    ensures forall i, j :: 0 <= i < j < 2 * |news| ==> Render(news).value[i].key != Render(news).value[j].key
  {
    var rows := Render(news).value;
    forall i, j | 0 <= i < j < 2 * |news| ensures rows[i].key != rows[j].key {
      var d := DoubleNews(news);
      assert rows[i].key == RowKey(d[i].id, i) && rows[j].key == RowKey(d[j].id, j);
      RowKeyIndex(d[i].id, i);
      RowKeyIndex(d[j].id, j);
      if rows[i].key == rows[j].key {
        NatToStringInjective(i, j);
      }
    }
  }

  /** The second half of the ticker shows the same items as the first. */
  lemma SecondHalfRepeatsFirst(news: seq<MarketNews>)
    requires |news| > 0
    ensures forall i :: 0 <= i < |news| ==> Render(news).value[i].item == Render(news).value[i + |news|].item == news[i]
  {
  }
}
