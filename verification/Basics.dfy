/** Shared vocabulary: optional values, fallible results, the identifier rules of
    `crates/domain/src/id.rs`, SQLite's integer range, and a few sequence facts. */
module Basics {

  datatype Option<+T> = None | Some(value: T) {
    predicate IsFailure() { None? }
    function PropagateFailure<U>(): Option<U> requires None? { None }
    function Extract(): T requires Some? { value }
    function GetOr(default: T): T { if Some? then value else default }
  }

  datatype Result<+T, +E> = Ok(value: T) | Err(error: E) {
    predicate IsFailure() { Err? }
    function PropagateFailure<U>(): Result<U, E> requires Err? { Err(error) }
    function Extract(): T requires Ok? { value }
  }

  /** Largest value SQLite can store in an INTEGER column. */
  const MAX_I64: nat := 0x7fff_ffff_ffff_ffff

  /** Characters with the Unicode White_Space property, which `str::trim` removes. */
  predicate IsSpace(c: char) {
    || '\t' <= c <= '\r'
    || c == ' '
    || c == '\U{0085}'
    || c == '\U{00A0}'
    || c == '\U{1680}'
    || '\U{2000}' <= c <= '\U{200A}'
    || c == '\U{2028}'
    || c == '\U{2029}'
    || c == '\U{202F}'
    || c == '\U{205F}'
    || c == '\U{3000}'
  }

  /** `str::trim`: spaces are removed at both ends. */
  function Trim(text: string): string {
    if text == "" then ""
    else if IsSpace(text[0]) then Trim(text[1..])
    else if IsSpace(text[|text| - 1]) then Trim(text[..|text| - 1])
    else text
  }

  lemma {:induction false} TrimDecides(text: string)
    ensures |Trim(text)| <= |text|
    ensures Trim(text) == text <==> Unpadded(text)
    ensures Trim(text) == "" <==> Blank(text)
  {
    if text != "" {
      if IsSpace(text[0]) {
        TrimDecides(text[1..]);
        if Blank(text[1..]) {
          forall i | 0 <= i < |text| ensures IsSpace(text[i]) { if i > 0 { assert text[1..][i - 1] == text[i]; } }
        }
      } else if IsSpace(text[|text| - 1]) {
        TrimDecides(text[..|text| - 1]);
        assert text[..|text| - 1][0] == text[0] || |text| == 1;
      }
    }
  }

  /** `text.trim() == text`. */
  predicate Unpadded(text: string) {
    text != "" ==> !IsSpace(text[0]) && !IsSpace(text[|text| - 1])
  }

  /** `text.trim().is_empty()`. */
  predicate Blank(text: string) {
    forall i :: 0 <= i < |text| ==> IsSpace(text[i])
  }

  /** An opaque identifier is non-empty and has no surrounding whitespace. */
  predicate ValidId(id: string) {
    id != "" && Unpadded(id)
  }

  /** A stored reason is non-blank and has no surrounding whitespace. */
  predicate ValidDetail(detail: string) {
    !Blank(detail) && Unpadded(detail)
  }

  ghost predicate Distinct<T>(s: seq<T>) {
    forall i, j :: 0 <= i < j < |s| ==> s[i] != s[j]
  }

  function Elements<T>(s: seq<T>): set<T> {
    set x | x in s
  }

  function Flatten<T>(parts: seq<seq<T>>): seq<T> {
    if parts == [] then [] else parts[0] + Flatten(parts[1..])
  }

  lemma TailOfSum<T>(a: seq<T>, b: seq<T>)
    requires a != []
    ensures (a + b)[0] == a[0] && (a + b)[1..] == a[1..] + b
  {
  }

  lemma Regroup<T>(a: seq<T>, b: seq<T>, c: seq<T>)
    ensures (a + b) + c == a + (b + c)
  {
  }

  lemma {:induction false} FlattenAppend<T>(parts: seq<seq<T>>, more: seq<seq<T>>)
    ensures Flatten(parts + more) == Flatten(parts) + Flatten(more)
  {
    if parts == [] {
      assert parts + more == more;
    } else {
      assert (parts + more)[1..] == parts[1..] + more;
      FlattenAppend(parts[1..], more);
    }
  }

  lemma FlattenSnoc<T>(parts: seq<seq<T>>, last: seq<T>)
    ensures Flatten(parts + [last]) == Flatten(parts) + last
  {
    FlattenAppend(parts, [last]);
    assert Flatten([last]) == last;
  }

  lemma DistinctAppend<T>(a: seq<T>, b: seq<T>)
    requires Distinct(a) && Distinct(b) && forall x :: x in b ==> x !in a
    ensures Distinct(a + b)
  {
    forall i, j | 0 <= i < j < |a + b| ensures (a + b)[i] != (a + b)[j] {
      if i < |a| <= j {
        assert b[j - |a|] in b && a[i] in a;
      }
    }
  }

  /** A duplicate-free sequence has as many elements as its set. */
  lemma {:induction false} DistinctSize<T>(s: seq<T>)
    requires Distinct(s)
    ensures |Elements(s)| == |s|
  {
    if s != [] {
      DistinctSize(s[1..]);
      assert Elements(s) == {s[0]} + Elements(s[1..]);
    }
  }

  lemma SubsetOfEqualSize<T>(a: set<T>, b: set<T>)
    requires a <= b && |a| == |b|
    ensures a == b
  {
    if x :| x in b && x !in a {
      assert a <= b - {x};
      SubsetSize(a, b - {x});
    }
  }

  lemma SubsetSize<T>(a: set<T>, b: set<T>)
    requires a <= b
    ensures |a| <= |b|
  {
    assert b == a + (b - a);
  }

  predicate Digits(text: string) {
    forall i :: 0 <= i < |text| ==> '0' <= text[i] <= '9'
  }

  /** `n` in decimal, as `format!("{n}")` writes it. */
  function Decimal(n: nat): (text: string)
    ensures text != "" && Digits(text)
  {
    var digit := ['0' + (n % 10) as char];
    if n < 10 then digit else Decimal(n / 10) + digit
  }

  /** The number that a string of digits stands for. */
  function Value(digits: string): nat
    requires Digits(digits)
  {
    if digits == "" then 0 else 10 * Value(digits[..|digits| - 1]) + (digits[|digits| - 1] as int - '0' as int)
  }

  lemma {:induction false} DecimalReadsBack(n: nat)
    ensures Value(Decimal(n)) == n && (n > 0 ==> Decimal(n)[0] != '0')
  {
    var last := ['0' + (n % 10) as char];
    if n < 10 {
      assert last[..0] == "";
    } else {
      DecimalReadsBack(n / 10);
      assert Decimal(n)[..|Decimal(n)| - 1] == Decimal(n / 10);
    }
  }

  lemma {:induction false} ElementsBound<T>(s: seq<T>)
    ensures |Elements(s)| <= |s| && (|Elements(s)| == |s| ==> Distinct(s))
  {
    if s != [] {
      ElementsBound(s[1..]);
      assert Elements(s) == {s[0]} + Elements(s[1..]);
      if s[0] !in s[1..] {
        forall j | 1 <= j < |s| ensures s[j] != s[0] { assert s[j] == s[1..][j - 1]; }
      }
    }
  }

  /** Pigeonhole: equally many distinct values drawn from a pool exhaust it and leave no repetition. */
  lemma Covering<T>(drawn: seq<T>, pool: seq<T>)
    requires Distinct(drawn) && |drawn| == |pool| && forall x :: x in drawn ==> x in pool
    ensures Distinct(pool) && forall x :: x in pool ==> x in drawn
  {
    DistinctSize(drawn);
    ElementsBound(pool);
    var d, p := Elements(drawn), Elements(pool);
    SubsetSize(d, p);
    SubsetOfEqualSize(d, p);
    forall x | x in pool ensures x in drawn { assert x in p; }
  }
}
