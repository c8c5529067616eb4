/** Strings as Python's str methods build them: joining, decimal numbers, blankness,
    tail slices, and the marker-in-the-middle cut. */
module Text {

  datatype Option<+T> = None | Some(value: T)

  lemma {:induction false} Associative<T>(a: seq<T>, b: seq<T>, c: seq<T>)
    ensures a + (b + c) == (a + b) + c
  {
  }

  /** Taking the first element off a non-empty front. */
  lemma {:induction false} TailOfConcat<T>(a: seq<T>, b: seq<T>)
    requires a != []
    ensures (a + b)[0] == a[0] && (a + b)[1..] == a[1..] + b
  {
  }

  /** Where the two parts of a concatenation are. */
  lemma {:induction false} AtConcat<T>(a: seq<T>, b: seq<T>)
    ensures (a + b)[..|a|] == a && (a + b)[|a|..] == b
    ensures forall k | 0 <= k < |b| :: (a + b)[|a| + k] == b[k]
  {
  }

  lemma {:induction false} SliceLater<T>(a: seq<T>, b: seq<T>, from: nat, to: nat)
    requires from <= to <= |b|
    ensures (a + b)[|a| + from..|a| + to] == b[from..to]
  {
  }

  function Join(separator: string, parts: seq<string>): string
  {
    if parts == [] then ""
    else if |parts| == 1 then parts[0]
    else parts[0] + separator + Join(separator, parts[1..])
  }

  /** A joined text is at least as long as all its parts together. */
  lemma {:induction false} JoinHoldsParts(separator: string, parts: seq<string>)
    ensures |Join(separator, parts)| >= TotalLength(parts)
  {
    if |parts| > 1 {
      JoinHoldsParts(separator, parts[1..]);
    }
  }

  /** Where part `k` of a joined text starts. */
  function PartAt(separator: string, parts: seq<string>, k: nat): nat
    requires k <= |parts|
  {
    if k == 0 then 0 else |parts[0]| + |separator| + PartAt(separator, parts[1..], k - 1)
  }

  /** The part is there, and behind it the separator or the end. */
  predicate IsPlaced(separator: string, joined: string, part: string, at: nat, isLast: bool)
  {
    var end := at + |part|;
    && end <= |joined| && joined[at..end] == part
    && if isLast then end == |joined|
       else end + |separator| <= |joined| && joined[end..end + |separator|] == separator
  }

  lemma {:induction false} PlacedFirst(separator: string, part: string, rest: string)
    ensures IsPlaced(separator, part + separator + rest, part, 0, false)
  {
  }

  lemma {:induction false} PlacedLater(
      front: string, separator: string, joined: string, part: string, at: nat, isLast: bool)
    requires IsPlaced(separator, joined, part, at, isLast)
    ensures IsPlaced(separator, front + joined, part, |front| + at, isLast)
  {
    var end := at + |part|;
    SliceLater(front, joined, at, end);
    if !isLast {
      SliceLater(front, joined, end, end + |separator|);
    }
  }

  /** Every part is in its place, and between two parts there is just the separator. */
  lemma {:induction false} JoinPlaces(separator: string, parts: seq<string>, k: nat)
    requires k < |parts|
    ensures IsPlaced(separator, Join(separator, parts), parts[k], PartAt(separator, parts, k), k == |parts| - 1)
  {
    if |parts| > 1 {
      hide IsPlaced;
      if k == 0 {
        PlacedFirst(separator, parts[0], Join(separator, parts[1..]));
      } else {
        JoinPlaces(separator, parts[1..], k - 1);
        var at := PartAt(separator, parts[1..], k - 1);
        PlacedLater(parts[0] + separator, separator, Join(separator, parts[1..]), parts[k], at, k == |parts| - 1);
      }
    }
  }

  function TotalLength(parts: seq<string>): nat
  {
    if parts == [] then 0 else |parts[0]| + TotalLength(parts[1..])
  }

  lemma {:induction false} PartWithinTotal(parts: seq<string>, k: nat)
    requires k < |parts|
    ensures |parts[k]| <= TotalLength(parts)
  {
    if k > 0 {
      PartWithinTotal(parts[1..], k - 1);
    }
  }

  /** The last part of a joined text is its end. */
  lemma {:induction false} JoinEndsWithLast(separator: string, parts: seq<string>)
    requires parts != []
    ensures EndsWith(Join(separator, parts), parts[|parts| - 1])
  {
    if |parts| > 1 {
      JoinEndsWithLast(separator, parts[1..]);
      EndsWithUnder(parts[0] + separator, Join(separator, parts[1..]), parts[|parts| - 1]);
    }
  }

  /** The first part of a joined text is its start. */
  lemma {:induction false} JoinStartsWithFirst(separator: string, parts: seq<string>)
    requires parts != []
    ensures parts[0] <= Join(separator, parts)
  {
  }

  predicate EndsWith(s: string, suffix: string)
  {
    |suffix| <= |s| && s[|s| - |suffix|..] == suffix
  }

  lemma {:induction false} EndsWithUnder(front: string, s: string, suffix: string)
    requires EndsWith(s, suffix)
    ensures EndsWith(front + s, suffix)
  {
    var whole := front + s;
    assert whole[|whole| - |suffix|..] == s[|s| - |suffix|..];
  }

  function Decimal(n: nat): string
  {
    var digits := "0123456789";
    if n < 10 then [digits[n]] else Decimal(n / 10) + [digits[n % 10]]
  }

  /** The number that a row of digits stands for. */
  function ReadDecimal(digits: string): int
  {
    if digits == "" then 0
    else 10 * ReadDecimal(digits[..|digits| - 1]) + (digits[|digits| - 1] as int - '0' as int)
  }

  /** A number is written in digits alone, reads as itself, and has no needless zero in front. */
  lemma {:induction false} DecimalReads(n: nat)
    ensures ReadDecimal(Decimal(n)) == n
    ensures Decimal(n) != "" && (|Decimal(n)| > 1 ==> Decimal(n)[0] != '0')
    ensures forall i | 0 <= i < |Decimal(n)| :: '0' <= Decimal(n)[i] <= '9'
  {
    var digit := "0123456789"[n % 10];
    assert digit as int - '0' as int == n % 10;
    if n >= 10 {
      DecimalReads(n / 10);
      assert (Decimal(n / 10) + [digit])[..|Decimal(n / 10)|] == Decimal(n / 10);
    } else {
      assert Decimal(n)[..0] == "";
    }
  }

  /** What str.isspace accepts, which is what strip() removes. */
  predicate IsSpace(c: char)
  {
    || '\U{9}' <= c <= '\U{d}' || '\U{1c}' <= c <= '\U{20}'
    || c == '\U{85}' || c == '\U{a0}' || c == '\U{1680}' || '\U{2000}' <= c <= '\U{200a}'
    || c == '\U{2028}' || c == '\U{2029}' || c == '\U{202f}' || c == '\U{205f}' || c == '\U{3000}'
  }

  /** True when strip() would leave nothing. */
  predicate IsBlank(s: string)
  {
    forall i | 0 <= i < |s| :: IsSpace(s[i])
  }

  /** text[-count:], where a count of 0 takes everything. */
  function LastChars(text: string, count: nat): string
    requires count <= |text|
  {
    if count == 0 then text else text[|text| - count..]
  }

  function CutMarker(cut: nat, note: string): string
  {
    "\n[... " + Decimal(cut) + " characters cut. " + note + " ...]\n"
  }

  function CutMiddle(text: string, limit: nat, note: string): string
  {
    if |text| <= limit then text
    else
      var head := limit * 2 / 3;
      text[..head] + CutMarker(|text| - limit, note) + LastChars(text, limit - head)
  }

  /** `cut` is the first `head` characters of `text`, the marker, and its last `tail` ones. */
  predicate KeepsEnds(text: string, cut: string, marker: string, head: nat, tail: nat)
  {
    && head + tail <= |text|
    && cut == text[..head] + marker + text[|text| - tail..]
  }

  /** A cut keeps exactly `limit` characters, two thirds from the start and the rest from the
      end, precisely when the limit is positive: at 0 the tail slice is the whole text. */
  lemma {:induction false} CutMiddleKeepsLimit(text: string, limit: nat, note: string)
    requires limit < |text|
    ensures
      var marker := CutMarker(|text| - limit, note);
      var cut := CutMiddle(text, limit, note);
      && (|cut| == limit + |marker| <==> limit >= 1)
      && (limit >= 1 ==> KeepsEnds(text, cut, marker, limit * 2 / 3, limit - limit * 2 / 3))
      && (limit == 0 ==> cut == marker + text)
  {
    var head := limit * 2 / 3;
    var marker := CutMarker(|text| - limit, note);
    var tail := LastChars(text, limit - head);
    assert CutMiddle(text, limit, note) == text[..head] + marker + tail;
    assert |text[..head] + marker + tail| == head + |marker| + |tail|;
    if limit == 0 {
      assert text[..0] + marker == marker;
    }
  }
}
