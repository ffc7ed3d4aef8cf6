/**
 * Transcript assembly in the web service: the conversation stream is drained
 * in order, each item contributes the text it carries (if any), and the
 * pieces are joined with a blank line, as Python's `"\n\n".join(...)` does.
 */
module Transcript {
  import opened Wrappers

  const Separator := "\n\n"

  /**
   * The value found under a `content` or `text` attribute. Most stream items
   * carry a string, but nothing forces it: a tool-call event carries a list,
   * which `str.join` refuses.
   */
  datatype Piece = Text(s: string) | NonText(typeName: string)

  /**
   * One item of the conversation stream: an object that may or may not have
   * a `content` and a `text` attribute, or a bare Python string (which has
   * neither attribute).
   */
  datatype StreamItem =
    | Event(content: Option<Piece>, text: Option<Piece>)
    | PlainString(s: string)

  /** What one stream item adds to the transcript: `content` first, then `text`, then the string itself. */
  function PieceOf(item: StreamItem): (p: Option<Piece>)
    ensures item.Event? && item.content.Some? ==> p == item.content
    ensures item.Event? && item.content.None? ==> p == item.text
    ensures item.PlainString? ==> p == Some(Text(item.s))
  {
    match item
    case Event(content, text) => if content.Some? then content else text
    case PlainString(s) => Some(Text(s))
  }

  function OptionToSeq<T>(o: Option<T>): (r: seq<T>)
    ensures |r| <= 1
    ensures o.Some? ==> r == [o.value]
    ensures o.None? ==> r == []
  {
    if o.Some? then [o.value] else []
  }

  /** The pieces the collection loop appends, in stream order. */
  function Collect(stream: seq<StreamItem>): (r: seq<Piece>)
    ensures |r| <= |stream|
    ensures forall i :: 0 <= i < |stream| && PieceOf(stream[i]).Some? ==> PieceOf(stream[i]).value in r
    ensures forall k :: 0 <= k < |r| ==> exists i :: 0 <= i < |stream| && PieceOf(stream[i]) == Some(r[k])
  {
    if stream == [] then []
    else
      var init := stream[..|stream| - 1];
      assert forall i :: 0 <= i < |init| ==> init[i] == stream[i];
      Collect(init) + OptionToSeq(PieceOf(stream[|stream| - 1]))
  }

  /** Total number of characters in `ss`. */
  function TotalLength(ss: seq<string>): nat {
    if ss == [] then 0 else |ss[0]| + TotalLength(ss[1..])
  }

  /** `sep.join(ss)` on strings. */
  function Join(ss: seq<string>, sep: string): (r: string)
    ensures ss == [] ==> r == ""
    ensures ss != [] ==> |r| == TotalLength(ss) + (|ss| - 1) * |sep|
  {
    if ss == [] then ""
    else if |ss| == 1 then ss[0]
    else ss[0] + sep + Join(ss[1..], sep)
  }

  /** Where the `i`-th piece starts in `Join(ss, sep)`: all earlier pieces, each followed by one separator. */
  function Offset(ss: seq<string>, sep: string, i: nat): nat
    requires i <= |ss|
  {
    TotalLength(ss[..i]) + i * |sep|
  }

  /** The message of the `TypeError` raised by `str.join` on a non-string item. */
  function JoinTypeErrorMessage(index: nat, typeName: string): string {
    "sequence item " + NatToString(index) + ": expected str instance, " + typeName + " found"
  }

  /** The number a string of decimal digits denotes, most significant digit first. */
  ghost function DecimalValue(s: string): nat
    requires forall k :: 0 <= k < |s| ==> '0' <= s[k] <= '9'
  {
    if s == [] then 0 else DecimalValue(s[..|s| - 1]) * 10 + (s[|s| - 1] as int - '0' as int)
  }

  /** `str(n)`: the decimal digits of `n`. */
  function NatToString(n: nat): (r: string)
    ensures |r| > 0
    ensures forall k :: 0 <= k < |r| ==> '0' <= r[k] <= '9'
    ensures DecimalValue(r) == n
    ensures r[0] != '0' || r == "0"
  {
    var d := ['0', '1', '2', '3', '4', '5', '6', '7', '8', '9'][n % 10];
    if n < 10 then [d] else NatToString(n / 10) + [d]
  }

  /**
   * The strings among `pieces[from..]`, or the `TypeError` for the first
   * piece from index `from` on that is not a string.
   */
  function TextsFrom(pieces: seq<Piece>, from: nat): (r: Result<seq<string>, string>)
    requires from <= |pieces|
    decreases |pieces| - from
    ensures r.Success? <==> forall k :: from <= k < |pieces| ==> pieces[k].Text?
    ensures r.Success? ==> |r.value| == |pieces| - from && forall k :: 0 <= k < |r.value| ==> pieces[from + k] == Text(r.value[k])
    ensures r.Failure? ==>
      (exists i :: && from <= i < |pieces| && pieces[i].NonText?
                   && (forall k :: from <= k < i ==> pieces[k].Text?)
                   && r.error == JoinTypeErrorMessage(i, pieces[i].typeName))
  {
    if from == |pieces| then Success([])
    else if pieces[from].NonText? then Failure(JoinTypeErrorMessage(from, pieces[from].typeName))
    else
      var rest :- TextsFrom(pieces, from + 1);
      Success([pieces[from].s] + rest)
  }

  /**
   * `"\n\n".join(pieces)`: it fails exactly when some piece is not a string,
   * naming the first such item; otherwise it joins the strings in order.
   */
  function JoinPieces(pieces: seq<Piece>): (r: Result<string, string>)
    ensures r.Success? <==> forall k :: 0 <= k < |pieces| ==> pieces[k].Text?
    ensures r.Success? ==>
      (exists texts: seq<string> ::
        && |texts| == |pieces|
        && (forall k :: 0 <= k < |texts| ==> pieces[k] == Text(texts[k]))
        && r.value == Join(texts, Separator))
    ensures r.Failure? ==>
      (exists i :: && 0 <= i < |pieces| && pieces[i].NonText?
                   && (forall k :: 0 <= k < i ==> pieces[k].Text?)
                   && r.error == JoinTypeErrorMessage(i, pieces[i].typeName))
  {
    var t := TextsFrom(pieces, 0);
    if t.Failure? then Failure(t.error)
    else
      var texts := t.value;
      assert forall k :: 0 <= k < |texts| ==> pieces[k] == Text(texts[k]);
      Success(Join(texts, Separator))
  }

  /** Draining the stream and joining what it carried. */
  function AssembleTranscript(stream: seq<StreamItem>): (r: Result<string, string>)
    ensures stream == [] ==> r == Success("")
    ensures r.Success? <==>
      forall i :: 0 <= i < |stream| && PieceOf(stream[i]).Some? ==> PieceOf(stream[i]).value.Text?
  {
    JoinPieces(Collect(stream))
  }

  /**
   * The loop of `run_stock_analysis` over the stream followed by the join;
   * it computes exactly `AssembleTranscript`.
   */
  method CollectTranscript(stream: seq<StreamItem>) returns (r: Result<string, string>)
    ensures r == AssembleTranscript(stream)
    ensures r.Success? <==> forall k :: 0 <= k < |Collect(stream)| ==> Collect(stream)[k].Text?
  {
    var results: seq<Piece> := [];
    var i := 0;
    while i < |stream|
      invariant 0 <= i <= |stream|
      invariant results == Collect(stream[..i])
    {
      var item := stream[i];
      match item {
        case Event(content, text) =>
          if content.Some? {
            results := results + [content.value];
          } else if text.Some? {
            results := results + [text.value];
          }
        case PlainString(s) =>
          results := results + [Text(s)];
      }
      assert stream[..i + 1][..i] == stream[..i];
      i := i + 1;
    }
    assert stream[..i] == stream;
    r := JoinPieces(results);
  }

  // ---------------------------------------------------------------------
  // Lemmas

  /** Collection distributes over concatenation of streams: pieces keep their stream order. */
  lemma {:induction false} CollectAppend(a: seq<StreamItem>, b: seq<StreamItem>)
    ensures Collect(a + b) == Collect(a) + Collect(b)
    decreases |b|
  {
    if b == [] {
      assert a + b == a;
    } else {
      var b' := b[..|b| - 1];
      assert (a + b)[..|a + b| - 1] == a + b';
      CollectAppend(a, b');
    }
  }

  /** An item without `content`, `text`, or string-ness contributes nothing. */
  lemma CollectDropsBareEvents(a: seq<StreamItem>, b: seq<StreamItem>)
    ensures Collect(a + [Event(None, None)] + b) == Collect(a + b)
  {
    CollectAppend(a + [Event(None, None)], b);
    CollectAppend(a, [Event(None, None)]);
    CollectAppend(a, b);
  }

  lemma {:induction false} TotalLengthPrefix(ss: seq<string>, i: nat)
    requires 0 < i <= |ss|
    ensures TotalLength(ss[..i]) == |ss[0]| + TotalLength(ss[1..][..i - 1])
  {
    assert ss[..i][0] == ss[0];
    assert ss[..i][1..] == ss[1..][..i - 1];
  }

  lemma {:induction false} TotalLengthAppend(ss: seq<string>, s: string)
    ensures TotalLength(ss + [s]) == TotalLength(ss) + |s|
  {
    if ss != [] {
      assert (ss + [s])[1..] == ss[1..] + [s];
      TotalLengthAppend(ss[1..], s);
    } else {
      assert [s][1..] == [];
    }
  }

  /** Consecutive pieces are exactly one piece and one separator apart. */
  lemma OffsetStep(ss: seq<string>, sep: string, i: nat)
    requires i < |ss|
    ensures Offset(ss, sep, i + 1) == Offset(ss, sep, i) + |ss[i]| + |sep|
  {
    assert ss[..i + 1] == ss[..i] + [ss[i]];
    TotalLengthAppend(ss[..i], ss[i]);
  }

  /** Dropping the first piece of a join shifts everything after it by one piece and one separator. */
  lemma JoinTail(ss: seq<string>, sep: string, a: nat, b: nat)
    requires |ss| > 1 && a <= b <= |Join(ss[1..], sep)|
    ensures |ss[0]| + |sep| + b <= |Join(ss, sep)|
    ensures Join(ss, sep)[|ss[0]| + |sep| + a..|ss[0]| + |sep| + b] == Join(ss[1..], sep)[a..b]
  {
    var p := |ss[0]| + |sep|;
    var j := Join(ss, sep);
    assert j == ss[0] + sep + Join(ss[1..], sep);
    assert j[p..] == Join(ss[1..], sep);
    assert j[p + a..p + b] == j[p..][a..b];
  }

  /**
   * Piece `i` of a join sits at `Offset(ss, sep, i)`; the last piece ends
   * the output.
   */
  lemma {:induction false} JoinPieceAt(ss: seq<string>, sep: string, i: nat)
    requires i < |ss|
    ensures Offset(ss, sep, i) + |ss[i]| <= |Join(ss, sep)|
    ensures Join(ss, sep)[Offset(ss, sep, i)..Offset(ss, sep, i) + |ss[i]|] == ss[i]
    ensures i == |ss| - 1 ==> Offset(ss, sep, i) + |ss[i]| == |Join(ss, sep)|
  {
    if i == 0 {
      assert ss[..0] == [];
      assert TotalLength(ss) == |ss[0]| + TotalLength(ss[1..]);
      if |ss| > 1 {
        assert Join(ss, sep) == ss[0] + sep + Join(ss[1..], sep);
      }
    } else {
      JoinPieceAt(ss[1..], sep, i - 1);
      TotalLengthPrefix(ss, i);
      var o := Offset(ss[1..], sep, i - 1);
      assert Offset(ss, sep, i) == |ss[0]| + |sep| + o;
      JoinTail(ss, sep, o, o + |ss[i]|);
    }
  }

  /** Every piece but the last is followed by exactly one separator. */
  lemma {:induction false} JoinSeparatorAfter(ss: seq<string>, sep: string, i: nat)
    requires i < |ss| - 1
    ensures Offset(ss, sep, i) + |ss[i]| + |sep| <= |Join(ss, sep)|
    ensures Join(ss, sep)[Offset(ss, sep, i) + |ss[i]|..Offset(ss, sep, i) + |ss[i]| + |sep|] == sep
  {
    if i == 0 {
      assert ss[..0] == [];
      assert Join(ss, sep) == ss[0] + sep + Join(ss[1..], sep);
    } else {
      JoinSeparatorAfter(ss[1..], sep, i - 1);
      TotalLengthPrefix(ss, i);
      var o := Offset(ss[1..], sep, i - 1);
      assert Offset(ss, sep, i) == |ss[0]| + |sep| + o;
      JoinTail(ss, sep, o + |ss[i]|, o + |ss[i]| + |sep|);
    }
  }

  /** The `TypeError` of `str.join` identifies the offending item: different indices give different messages. */
  lemma JoinTypeErrorNamesIndex(i: nat, j: nat, typeName: string)
    requires i != j
    ensures JoinTypeErrorMessage(i, typeName) != JoinTypeErrorMessage(j, typeName)
  {
    var a, b := NatToString(i), NatToString(j);
    var p, q := "sequence item ", ": expected str instance, " + typeName + " found";
    assert JoinTypeErrorMessage(i, typeName)[|p|..|p| + |a|] == a;
    assert JoinTypeErrorMessage(j, typeName)[|p|..|p| + |b|] == b;
  }
}
