/**
 * The label encoder the trainer fits per categorical column: its vocabulary is the
 * sorted set of distinct observed strings, and a string's code is its position there.
 * Encoding a string outside the vocabulary fails instead of defaulting.
 */
module LabelEncoding {
  import opened Wrappers

  /** Lexicographic order by character code, as NumPy orders unicode strings. */
  predicate Less(a: string, b: string)
    decreases |a|
  {
    if |a| == 0 then |b| > 0
    else if |b| == 0 then false
    else if a[0] != b[0] then a[0] < b[0]
    else Less(a[1..], b[1..])
  }

  lemma {:induction false} LessIrreflexive(a: string)
    ensures !Less(a, a)
    decreases |a|
  {
    if |a| > 0 { LessIrreflexive(a[1..]); }
  }

  lemma {:induction false} LessAsymmetric(a: string, b: string)
    requires Less(a, b)
    ensures !Less(b, a)
    decreases |a|
  {
    if |a| > 0 && |b| > 0 && a[0] == b[0] { LessAsymmetric(a[1..], b[1..]); }
  }

  lemma {:induction false} LessTransitive(a: string, b: string, c: string)
    requires Less(a, b) && Less(b, c)
    ensures Less(a, c)
    decreases |a|
  {
    if |a| > 0 && a[0] == b[0] && b[0] == c[0] { LessTransitive(a[1..], b[1..], c[1..]); }
  }

  lemma {:induction false} LessTotal(a: string, b: string)
    ensures a == b || Less(a, b) || Less(b, a)
    decreases |a|
  {
    if |a| > 0 && |b| > 0 && a[0] == b[0] {
      LessTotal(a[1..], b[1..]);
      if a[1..] == b[1..] { assert a == [a[0]] + a[1..] && b == [b[0]] + b[1..]; }
    }
  }

  predicate StrictlySorted(s: seq<string>)
  {
    forall i, j :: 0 <= i < j < |s| ==> Less(s[i], s[j])
  }

  /** A fitted encoder: `classes` is the vocabulary, a code is an index into it. */
  datatype LabelEncoder = LabelEncoder(classes: seq<string>)

  /** Add x to a strictly sorted vocabulary, keeping it strictly sorted. */
  function Insert(s: seq<string>, x: string): (r: seq<string>)
    requires StrictlySorted(s)
    ensures StrictlySorted(r)
    ensures forall y :: y in r <==> y in s || y == x
  {
    if s == [] then [x]
    else if x == s[0] then s
    else if Less(x, s[0]) then
      assert forall j :: 0 <= j < |s| ==> Less(x, s[j]) by {
        forall j | 0 < j < |s| { LessTransitive(x, s[0], s[j]); }
      }
      [x] + s
    else
      LessTotal(x, s[0]);
      var rest := Insert(s[1..], x);
      assert forall y :: y in rest ==> Less(s[0], y);
      [s[0]] + rest
  }

  /** `fit`: the sorted distinct values of the column. */
  function Fit(values: seq<string>): (e: LabelEncoder)
    ensures StrictlySorted(e.classes)
    ensures forall y :: y in e.classes <==> y in values
  {
    if values == [] then LabelEncoder([])
    else
      var prefix := values[..|values| - 1];
      assert values == prefix + [values[|values| - 1]];
      LabelEncoder(Insert(Fit(prefix).classes, values[|values| - 1]))
  }

  function IndexOf(s: seq<string>, v: string): (r: Option<nat>)
    ensures r.Some? <==> v in s
    ensures r.Some? ==> r.value < |s| && s[r.value] == v
    ensures r.Some? ==> forall j :: 0 <= j < r.value ==> s[j] != v
  {
    if s == [] then None
    else if s[0] == v then Some(0)
    else match IndexOf(s[1..], v)
      case None => None
      case Some(k) => Some(k + 1)
  }

  /** `transform` of one value: its code, or None where the encoder raises on an unseen label. */
  function Transform(e: LabelEncoder, v: string): (r: Option<nat>)
    ensures r.Some? <==> v in e.classes
    ensures r.Some? ==> r.value < |e.classes| && e.classes[r.value] == v
  {
    IndexOf(e.classes, v)
  }

  /** `inverse_transform` of one code: the label, or None for a code outside the vocabulary. */
  function InverseTransform(e: LabelEncoder, code: int): (r: Option<string>)
    ensures r.Some? <==> 0 <= code < |e.classes|
    ensures r.Some? ==> r.value in e.classes
    ensures r.Some? ==> r.value == e.classes[code]
  {
    if 0 <= code < |e.classes| then Some(e.classes[code]) else None
  }

  /** `fit_transform`: fit on the column, then encode every entry of it. */
  function FitTransform(values: seq<string>): (r: (LabelEncoder, seq<nat>))
    ensures r.0 == Fit(values) && |r.1| == |values|
    ensures forall i :: 0 <= i < |values| ==> Transform(r.0, values[i]) == Some(r.1[i])
  {
    var e := Fit(values);
    (e, seq(|values|, i requires 0 <= i < |values| => Transform(e, values[i]).value))
  }

  /** Every code of a fitted encoder denotes exactly one class: encoding the decoded class gives the code back. */
  lemma CodeRoundTrip(e: LabelEncoder, code: nat)
    requires StrictlySorted(e.classes) && code < |e.classes|
    ensures Transform(e, e.classes[code]) == Some(code)
  {
    var k := Transform(e, e.classes[code]).value;
    if k < code {
      LessIrreflexive(e.classes[k]);
    }
  }

  /** Decoding the code of any training value gives the value back. */
  lemma LabelRoundTrip(values: seq<string>, v: string)
    requires v in values
    ensures Transform(Fit(values), v).Some?
    ensures InverseTransform(Fit(values), Transform(Fit(values), v).value) == Some(v)
  {
  }

  /** Codes follow the sorted order of the labels, so they are reproducible from the vocabulary alone. */
  lemma CodesFollowOrder(e: LabelEncoder, a: string, b: string)
    requires StrictlySorted(e.classes) && a in e.classes && b in e.classes
    ensures Less(a, b) <==> Transform(e, a).value < Transform(e, b).value
  {
    var i, j := Transform(e, a).value, Transform(e, b).value;
    if Less(a, b) && j <= i {
      if j == i { LessIrreflexive(a); } else { LessAsymmetric(a, b); }
    }
  }
}
