/**
  Comma-separated lists of texts: Array.prototype.join with its default ","
  separator, and the split that reads such a list back.
 */
module CommaLists {

  predicate NoComma(t: string) {
    forall i :: 0 <= i < |t| ==> t[i] != ','
  }

  /** `parts.join()`: the parts in order, separated by ","; the empty list joins to "". */
  function Join(parts: seq<string>): (r: string)
    ensures |parts| == 0 ==> r == ""
  {
    if |parts| == 0 then ""
    else if |parts| == 1 then parts[0]
    else parts[0] + "," + Join(parts[1..])
  }

  /** Cuts a text at every ","; a text without commas is a one-element list. */
  function Split(s: string): (r: seq<string>)
    ensures |r| > 0
  {
    if |s| == 0 then [""]
    else
      var rest := Split(s[1..]);
      if s[0] == ',' then [""] + rest else [[s[0]] + rest[0]] + rest[1..]
  }

  lemma {:induction false} SplitNoComma(t: string)
    requires NoComma(t)
    ensures Split(t) == [t]
  {
    if |t| > 0 {
      SplitNoComma(t[1..]);
      assert [t[0]] + t[1..] == t;
    }
  }

  lemma {:induction false} SplitAfterPart(a: string, b: string)
    requires NoComma(a)
    ensures Split(a + "," + b) == [a] + Split(b)
  {
    if |a| == 0 {
      assert a + "," + b == [','] + b;
      assert ([','] + b)[1..] == b;
    } else {
      assert (a + "," + b)[1..] == a[1..] + "," + b;
      SplitAfterPart(a[1..], b);
      assert [a[0]] + a[1..] == a;
    }
  }

  /** Splitting a join of comma-free parts gives back the parts, in order. */
  lemma {:induction false} SplitJoin(parts: seq<string>)
    requires |parts| > 0
    requires forall i :: 0 <= i < |parts| ==> NoComma(parts[i])
    ensures Split(Join(parts)) == parts
  {
    if |parts| == 1 {
      SplitNoComma(parts[0]);
    } else {
      SplitJoin(parts[1..]);
      SplitAfterPart(parts[0], Join(parts[1..]));
      assert [parts[0]] + parts[1..] == parts;
    }
  }
}
