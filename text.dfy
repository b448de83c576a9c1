/** `String.prototype.split` with a one-character separator, and its inverse. */
module Text {

  /** Position of the first `c` in `s`, or `|s|` when there is none. */
  function IndexOf(s: string, c: char): (i: nat)
    ensures i <= |s|
    ensures i < |s| ==> s[i] == c
    ensures forall j :: 0 <= j < i ==> s[j] != c
  {
    if s == [] then 0
    else if s[0] == c then 0
    else 1 + IndexOf(s[1..], c)
  }

  /** `parts.join(c)` */
  function Join(parts: seq<string>, c: char): string
  {
    if |parts| == 0 then ""
    else if |parts| == 1 then parts[0]
    else parts[0] + [c] + Join(parts[1..], c)
  }

  /** Total length of the parts. */
  function SumLen(parts: seq<string>): nat
  {
    if parts == [] then 0 else |parts[0]| + SumLen(parts[1..])
  }

  /** `s.split(c)`: the maximal `c`-free pieces of `s`, in order; the empty
      string splits into one empty piece. */
  function Split(s: string, c: char): (parts: seq<string>)
    ensures |parts| >= 1
    ensures Join(parts, c) == s
    ensures forall i :: 0 <= i < |parts| ==> c !in parts[i]
    ensures SumLen(parts) + |parts| - 1 == |s|
    ensures forall i :: 0 <= i < |parts| ==> |parts[i]| <= |s|
    ensures |parts| >= 2 ==> |parts[0]| + |parts[1]| < |s|
    decreases |s|
  {
    var i := IndexOf(s, c);
    if i == |s| then [s]
    else
      var rest := Split(s[i + 1..], c);
      assert s == s[..i] + [c] + s[i + 1..];
      [s[..i]] + rest
  }

  lemma {:induction false} JoinAppend(a: seq<string>, b: seq<string>, c: char)
    requires |a| >= 1 && |b| >= 1
    ensures Join(a + b, c) == Join(a, c) + [c] + Join(b, c)
    decreases |a|
  {
    if |a| == 1 {
      assert (a + b)[1..] == b;
    } else {
      assert (a + b)[1..] == a[1..] + b;
      JoinAppend(a[1..], b, c);
    }
  }

  /** Splitting undoes joining when no part contains the separator. */
  lemma {:induction false} SplitJoin(parts: seq<string>, c: char)
    requires |parts| >= 1
    requires forall i :: 0 <= i < |parts| ==> c !in parts[i]
    ensures Split(Join(parts, c), c) == parts
    decreases |parts|
  {
    var s := Join(parts, c);
    if |parts| == 1 {
      NoSeparator(parts[0], c);
    } else {
      var p := parts[0];
      assert s == p + [c] + Join(parts[1..], c);
      var i := IndexOf(s, c);
      assert s[|p|] == c;
      assert forall j :: 0 <= j < |p| ==> s[j] == p[j];
      assert i == |p|;
      assert s[..i] == p;
      assert s[i + 1..] == Join(parts[1..], c);
      SplitJoin(parts[1..], c);
    }
  }

  /** A string splits into a single piece exactly when it has no separator. */
  lemma SinglePiece(s: string, c: char)
    ensures |Split(s, c)| == 1 <==> c !in s
    decreases |s|
  {
    var i := IndexOf(s, c);
    if i < |s| {
      assert s[i] == c;
    }
  }

  /** A string without the separator is a single piece. */
  lemma NoSeparator(s: string, c: char)
    requires c !in s
    ensures Split(s, c) == [s]
  {
  }

  /** Splitting distributes over a separator. */
  lemma SplitAppend(a: string, b: string, c: char)
    ensures Split(a + [c] + b, c) == Split(a, c) + Split(b, c)
  {
    var pa, pb := Split(a, c), Split(b, c);
    var both := pa + pb;
    assert Join(both, c) == a + [c] + b by {
      JoinAppend(pa, pb, c);
    }
    assert forall i :: 0 <= i < |both| ==> c !in both[i] by {
      forall i | 0 <= i < |both| ensures c !in both[i] {
        if i < |pa| {
          assert both[i] == pa[i];
        } else {
          assert both[i] == pb[i - |pa|];
        }
      }
    }
    assert Split(Join(both, c), c) == both by {
      SplitJoin(both, c);
    }
  }
}
