/**
 * Python's `', '.join(parts)`, used to list zones in the alert messages, and a
 * reading of such a list back into its parts.
 */
module Text {
  import opened Wrappers

  /** The total length of the parts. */
  function TotalLength(parts: seq<string>): nat
  {
    if |parts| == 0 then 0 else |parts[0]| + TotalLength(parts[1..])
  }

  /** `', '.join(parts)`: the parts in order, with a two-character separator between neighbours. */
  function Join(parts: seq<string>): (j: string)
    ensures |parts| == 0 ==> j == ""
    ensures |parts| > 0 ==> |j| == TotalLength(parts) + 2 * (|parts| - 1)
    ensures |parts| > 0 ==> |parts[0]| <= |j| && j[..|parts[0]|] == parts[0]
  {
    if |parts| == 0 then ""
    else if |parts| == 1 then parts[0]
    else parts[0] + ", " + Join(parts[1..])
  }

  /** `s` holds the separator `", "` at position `k`. */
  predicate SeparatorAt(s: string, k: int)
  {
    0 <= k && k + 1 < |s| && s[k] == ',' && s[k + 1] == ' '
  }

  /** The position of the first `", "`, if there is one. */
  function SeparatorIndex(s: string): (r: Option<nat>)
    ensures r.None? ==> forall k :: 0 <= k < |s| ==> !SeparatorAt(s, k)
    ensures r.Some? ==> SeparatorAt(s, r.value) && forall k :: 0 <= k < r.value ==> !SeparatorAt(s, k)
  {
    if |s| < 2 then None
    else if s[0] == ',' && s[1] == ' ' then Some(0)
    else match SeparatorIndex(s[1..])
      case None =>
        assert forall k :: 1 <= k < |s| ==> (SeparatorAt(s, k) <==> SeparatorAt(s[1..], k - 1));
        None
      case Some(j) =>
        assert forall k :: 1 <= k < |s| ==> (SeparatorAt(s, k) <==> SeparatorAt(s[1..], k - 1));
        Some(j + 1)
  }

  /** Cuts a list written by Join back into its parts, at every `", "`. */
  function Split(s: string): seq<string>
    decreases |s|
  {
    match SeparatorIndex(s)
    case None => [s]
    case Some(i) => [s[..i]] + Split(s[i + 2..])
  }

  lemma SeparatorIndexAfter(p: string, t: string)
    requires ',' !in p && SeparatorAt(t, 0)
    ensures SeparatorIndex(p + t) == Some(|p|)
  {
    var s := p + t;
    assert SeparatorAt(s, |p|);
    forall k | 0 <= k < |p|
      ensures !SeparatorAt(s, k)
    {
      assert s[k] == p[k];
    }
  }

  lemma NoSeparator(p: string)
    requires ',' !in p
    ensures SeparatorIndex(p) == None
  {
    forall k | 0 <= k < |p|
      ensures !SeparatorAt(p, k)
    {
      assert p[k] in p;
    }
  }

  /** A comma-free part in front of a separator is cut off as one part. */
  lemma SplitFirst(p: string, t: string)
    requires ',' !in p
    ensures Split(p + ", " + t) == [p] + Split(t)
  {
    var s := p + ", " + t;
    assert s == p + (", " + t);
    SeparatorIndexAfter(p, ", " + t);
    assert s[..|p|] == p && s[|p| + 2..] == t;
  }

  /** A list of comma-free parts is read back exactly as it was joined. */
  lemma {:induction false} SplitJoin(parts: seq<string>)
    requires |parts| > 0
    requires forall i :: 0 <= i < |parts| ==> ',' !in parts[i]
    ensures Split(Join(parts)) == parts
  {
    if |parts| == 1 {
      NoSeparator(parts[0]);
    } else {
      SplitFirst(parts[0], Join(parts[1..]));
      SplitJoin(parts[1..]);
      assert parts == [parts[0]] + parts[1..];
    }
  }

  /** A comma that is not followed by a space does not separate parts. */
  lemma SplitNeedsSpace(p: string, q: string)
    requires ',' !in p && ',' !in q && (|q| == 0 || q[0] != ' ')
    ensures Split(p + "," + q) == [p + "," + q]
  {
    var s := p + "," + q;
    forall k | 0 <= k < |s|
      ensures !SeparatorAt(s, k)
    {
      if k < |p| {
        assert s[k] == p[k] && p[k] in p;
      } else if k == |p| {
        assert k + 1 < |s| ==> s[k + 1] == q[0];
      } else {
        assert s[k] == q[k - |p| - 1] && q[k - |p| - 1] in q;
      }
    }
  }

  /** Split never returns an empty list. */
  lemma SplitNonEmpty(s: string)
    ensures |Split(s)| > 0
  {
  }

  /** Split removes exactly the separators: joining its parts gives back any string. */
  lemma {:induction false} JoinSplit(s: string)
    ensures Join(Split(s)) == s
    decreases |s|
  {
    match SeparatorIndex(s)
    case None =>
    case Some(i) =>
      var rest := s[i + 2..];
      JoinSplit(rest);
      SplitNonEmpty(rest);
      var parts := [s[..i]] + Split(rest);
      assert parts[1..] == Split(rest);
      assert s == s[..i] + ", " + rest;
  }
}
