/**
 The names the local spool gives its files.

 A published file is called `<due ms>-<uuid>.json`.  Once it has been received
 k times it is called `<due ms>-<uuid>#k.json`: the count and the due time live
 in the name, so a rename is the only write a redelivery needs.
 */
module FileNames {
  import opened Wrappers

  const SUFFIX := ".json"

  // ---- decimal numerals -------------------------------------------------

  predicate IsDigit(c: char) { '0' <= c <= '9' }

  /** Python's `isdigit` on ASCII text: nonempty and made of digits. */
  predicate IsDigits(s: string) { s != "" && forall k :: 0 <= k < |s| ==> IsDigit(s[k]) }

  function DigitChar(d: nat): (c: char)
    requires d < 10
    ensures IsDigit(c) && c as int - '0' as int == d
  {
    ('0' as int + d) as char
  }

  function Decimal(n: nat): (s: string)
    ensures IsDigits(s)
  {
    if n < 10 then [DigitChar(n)] else Decimal(n / 10) + [DigitChar(n % 10)]
  }

  function Value(s: string): nat
    requires IsDigits(s)
  {
    var last := s[|s| - 1] as int - '0' as int;
    if |s| == 1 then last else 10 * Value(s[..|s| - 1]) + last
  }

  lemma {:induction false} ValueOfDecimal(n: nat)
    ensures Value(Decimal(n)) == n
  {
    if n >= 10 {
      var s := Decimal(n);
      ValueOfDecimal(n / 10);
      assert s[..|s| - 1] == Decimal(n / 10);
    }
  }

  lemma Assoc(a: string, b: string, c: string)
    ensures (a + b) + c == a + (b + c)
  {
  }

  // ---- pieces of a name -------------------------------------------------

  predicate EndsWith(s: string, t: string) { |t| <= |s| && s[|s| - |t|..] == t }

  function RemoveSuffix(name: string): string {
    if EndsWith(name, SUFFIX) then name[..|name| - |SUFFIX|] else name
  }

  /** Where the last '#' stands, or -1. */
  function LastHash(s: string): (h: int)
    ensures -1 <= h < |s|
    ensures h >= 0 ==> s[h] == '#'
    ensures forall k :: h < k < |s| ==> s[k] != '#'
  {
    if s == "" then -1
    else if s[|s| - 1] == '#' then |s| - 1
    else LastHash(s[..|s| - 1])
  }

  predicate Counted(stem: string) {
    var h := LastHash(stem);
    h >= 0 && IsDigits(stem[h + 1..])
  }

  /** The part of a name no delivery ever changes. */
  function Origin(name: string): string {
    var stem := RemoveSuffix(name);
    if Counted(stem) then stem[..LastHash(stem)] else stem
  }

  function AttemptsOf(name: string): nat {
    var stem := RemoveSuffix(name);
    if Counted(stem) then Value(stem[LastHash(stem) + 1..]) else 0
  }

  function WithAttempts(name: string, attempts: nat): string {
    Origin(name) + "#" + Decimal(attempts) + SUFFIX
  }

  // ---- laws of the codec ------------------------------------------------

  lemma RemoveSuffixOf(stem: string)
    ensures RemoveSuffix(stem + SUFFIX) == stem
  {
    assert (stem + SUFFIX)[|stem|..] == SUFFIX;
    assert (stem + SUFFIX)[..|stem|] == stem;
  }

  lemma LastHashUnique(s: string, h: nat)
    requires h < |s| && s[h] == '#'
    requires forall k :: h < k < |s| ==> s[k] != '#'
    ensures LastHash(s) == h
  {
  }

  lemma CountedStem(base: string, attempts: nat)
    ensures var stem := base + "#" + Decimal(attempts);
            Counted(stem) && LastHash(stem) == |base|
            && stem[..|base|] == base && stem[|base| + 1..] == Decimal(attempts)
  {
    var stem := base + "#" + Decimal(attempts);
    assert stem == base + ("#" + Decimal(attempts));
    assert stem[|base|] == '#';
    assert stem[|base| + 1..] == Decimal(attempts);
    forall k | |base| < k < |stem|
      ensures stem[k] != '#'
    {
      assert stem[k] == Decimal(attempts)[k - |base| - 1];
    }
    LastHashUnique(stem, |base|);
  }

  /** Whatever the name was: the count written is the count read, the origin is
      kept, and a second count replaces the first instead of piling up. */
  lemma CodecLaws(name: string, a: nat, b: nat)
    ensures AttemptsOf(WithAttempts(name, a)) == a
    ensures Origin(WithAttempts(name, a)) == Origin(name)
    ensures WithAttempts(WithAttempts(name, a), b) == WithAttempts(name, b)
  {
    var stem := Origin(name) + "#" + Decimal(a);
    RemoveSuffixOf(stem);
    CountedStem(Origin(name), a);
    ValueOfDecimal(a);
    assert WithAttempts(name, a) == stem + SUFFIX;
  }

  // ---- due time ---------------------------------------------------------

  /** `name.partition("-")[0]`. */
  function BeforeDash(s: string): string {
    if s == "" || s[0] == '-' then "" else [s[0]] + BeforeDash(s[1..])
  }

  /** The due time a name carries, when it carries one. */
  function DueOf(name: string): Option<nat> {
    var head := BeforeDash(name);
    if IsDigits(head) then Some(Value(head)) else None
  }

  /** The claim loop skips a name whose due millisecond lies ahead. */
  predicate IsDue(due: Option<nat>, nowMs: int) { due.None? || due.value <= nowMs }

  lemma {:induction false} BeforeDashOfPrefix(s: string, t: string)
    requires '-' in s
    ensures BeforeDash(s + t) == BeforeDash(s)
  {
    if s[0] != '-' {
      assert '-' in s[1..];
      BeforeDashOfPrefix(s[1..], t);
      assert (s + t)[1..] == s[1..] + t;
    }
  }

  lemma {:induction false} BeforeDashWithout(s: string)
    requires '-' !in s
    ensures BeforeDash(s) == s
  {
    if s != "" {
      BeforeDashWithout(s[1..]);
    }
  }

  lemma DueOfExtended(base: string, tail: string)
    requires '-' !in tail
    requires exists k :: 0 <= k < |tail| && !IsDigit(tail[k])
    ensures DueOf(base + tail) == if '-' in base then DueOf(base) else None
  {
    if '-' in base {
      BeforeDashOfPrefix(base, tail);
    } else {
      var s := base + tail;
      BeforeDashWithout(s);
      var k :| 0 <= k < |tail| && !IsDigit(tail[k]);
      assert !IsDigit(s[|base| + k]);
    }
  }

  /** What counting may replace in a name: an old count, if any, and the suffix. */
  function CountOf(stem: string): string {
    if Counted(stem) then "#" + stem[LastHash(stem) + 1..] else ""
  }

  function CountPart(name: string): string
    requires EndsWith(name, SUFFIX)
  {
    CountOf(RemoveSuffix(name)) + SUFFIX
  }

  lemma StemSplits(stem: string)
    ensures stem == (if Counted(stem) then stem[..LastHash(stem)] else stem) + CountOf(stem)
  {
    if Counted(stem) {
      HashSplit(stem, LastHash(stem));
    }
  }

  lemma NameSplits(name: string)
    requires EndsWith(name, SUFFIX)
    ensures name == Origin(name) + CountPart(name)
  {
    SuffixBack(name);
    StemSplits(RemoveSuffix(name));
    Assoc(Origin(name), CountOf(RemoveSuffix(name)), SUFFIX);
  }

  lemma SuffixBack(name: string)
    requires EndsWith(name, SUFFIX)
    ensures name == RemoveSuffix(name) + SUFFIX
  {
  }

  lemma HashSplit(stem: string, h: nat)
    requires h < |stem| && stem[h] == '#'
    ensures stem == stem[..h] + ("#" + stem[h + 1..])
  {
    assert "#" + stem[h + 1..] == stem[h..];
  }

  predicate IsCount(count: string) { count == "" || (count[0] == '#' && IsDigits(count[1..])) }

  lemma CountHasNoDash(count: string)
    requires IsCount(count)
    ensures '-' !in count + SUFFIX && !IsDigit((count + SUFFIX)[0])
  {
    assert forall k :: 1 <= k < |count| ==> count[k] == count[1..][k - 1];
  }

  lemma CountOfIsCount(stem: string)
    ensures IsCount(CountOf(stem))
  {
    if Counted(stem) {
      assert CountOf(stem)[1..] == stem[LastHash(stem) + 1..];
    }
  }

  /** Counting a delivery never touches the due time: no release and no reclaim
      brings a message forward or puts it back. */
  lemma DueSurvivesCounting(name: string, attempts: nat)
    requires EndsWith(name, SUFFIX)
    ensures DueOf(WithAttempts(name, attempts)) == DueOf(name)
  {
    NameSplits(name);
    CountOfIsCount(RemoveSuffix(name));
    CountHasNoDash(CountOf(RemoveSuffix(name)));
    assert !IsDigit(CountPart(name)[0]);
    DueOfExtended(Origin(name), CountPart(name));
    var part := "#" + Decimal(attempts) + SUFFIX;
    assert ("#" + Decimal(attempts))[1..] == Decimal(attempts);
    CountHasNoDash("#" + Decimal(attempts));
    assert !IsDigit(part[0]);
    Assoc(Origin(name), "#", Decimal(attempts));
    Assoc(Origin(name), "#" + Decimal(attempts), SUFFIX);
    DueOfExtended(Origin(name), part);
  }

  // ---- canonical names --------------------------------------------------

  /** A stem `publish` may create: it does not end in a delivery count. */
  predicate Plain(origin: string) { !Counted(origin) }

  /** The name of a message after `attempts` receives. */
  function NameOf(origin: string, attempts: nat): string {
    if attempts == 0 then origin + SUFFIX else origin + "#" + Decimal(attempts) + SUFFIX
  }

  lemma NameOfLaws(origin: string, attempts: nat)
    requires Plain(origin)
    ensures Origin(NameOf(origin, attempts)) == origin
    ensures AttemptsOf(NameOf(origin, attempts)) == attempts
    ensures forall k: nat :: k > 0 ==> WithAttempts(NameOf(origin, attempts), k) == NameOf(origin, k)
    ensures EndsWith(NameOf(origin, attempts), SUFFIX)
    ensures DueOf(NameOf(origin, attempts)) == DueOf(NameOf(origin, 0))
  {
    RemoveSuffixOf(origin);
    var base := origin + SUFFIX;
    assert EndsWith(base, SUFFIX) by { assert base[|origin|..] == SUFFIX; }
    if attempts > 0 {
      CodecLaws(base, attempts, attempts);
      DueSurvivesCounting(base, attempts);
      var stem := origin + "#" + Decimal(attempts);
      assert NameOf(origin, attempts) == stem + SUFFIX;
      assert (stem + SUFFIX)[|stem|..] == SUFFIX;
    }
  }

  /** The stem `publish` gives a message: due milliseconds, a dash, a fresh uuid. */
  function PublishedOrigin(dueMs: nat, uuid: string): string { Decimal(dueMs) + "-" + uuid }

  lemma PublishedOriginLaws(dueMs: nat, uuid: string)
    requires '#' !in uuid
    ensures Plain(PublishedOrigin(dueMs, uuid))
    ensures DueOf(NameOf(PublishedOrigin(dueMs, uuid), 0)) == Some(dueMs)
  {
    var head := Decimal(dueMs);
    var origin := PublishedOrigin(dueMs, uuid);
    assert forall k :: 0 <= k < |head| ==> IsDigit(head[k]);
    assert '#' !in origin;
    assert origin + SUFFIX == (head + "-") + (uuid + SUFFIX);
    assert (head + "-")[|head|] == '-';
    BeforeDashOfPrefix(head + "-", uuid + SUFFIX);
    BeforeDashOfHead(head);
    ValueOfDecimal(dueMs);
  }

  lemma {:induction false} BeforeDashOfHead(head: string)
    requires '-' !in head
    ensures BeforeDash(head + "-") == head
  {
    if head != "" {
      assert (head + "-")[1..] == head[1..] + "-";
      BeforeDashOfHead(head[1..]);
    } else {
      assert head + "-" == "-";
    }
  }

  // ---- the order of `sorted` --------------------------------------------

  /** Code-point order on names, as `sorted` uses it. */
  predicate Before(a: string, b: string) {
    b != "" && (a == "" || a[0] < b[0] || (a[0] == b[0] && Before(a[1..], b[1..])))
  }

  lemma {:induction false} BeforeTotal(a: string, b: string)
    ensures Before(a, b) || Before(b, a) || a == b
    ensures !(Before(a, b) && Before(b, a)) && (a == b ==> !Before(a, b))
  {
    if a != "" && b != "" {
      BeforeTotal(a[1..], b[1..]);
      if a[0] == b[0] && a[1..] == b[1..] {
        assert a == [a[0]] + a[1..] == b;
      }
    }
  }

  lemma {:induction false} BeforeTransitive(a: string, b: string, c: string)
    requires Before(a, b) && Before(b, c)
    ensures Before(a, c)
  {
    if a != "" && a[0] == b[0] == c[0] {
      BeforeTransitive(a[1..], b[1..], c[1..]);
    }
  }

  lemma {:induction false} BeforePrefix(a: string, b: string, s: string, t: string)
    requires |a| == |b| && Before(a, b)
    ensures Before(a + s, b + t)
  {
    if a != "" && a[0] == b[0] {
      assert (a + s)[1..] == a[1..] + s;
      assert (b + t)[1..] == b[1..] + t;
      BeforePrefix(a[1..], b[1..], s, t);
    }
  }

  lemma {:induction false} BeforeLast(a: string, b: string, x: char, y: char)
    requires a == b && x < y
    ensures Before(a + [x], b + [y])
  {
    if a != "" {
      assert (a + [x])[1..] == a[1..] + [x];
      assert (b + [y])[1..] == b[1..] + [y];
      BeforeLast(a[1..], b[1..], x, y);
    }
  }

  lemma {:induction false} DecimalOrder(m: nat, n: nat)
    requires m < n && |Decimal(m)| == |Decimal(n)|
    ensures Before(Decimal(m), Decimal(n))
  {
    if n < 10 {
      BeforeLast("", "", DigitChar(m), DigitChar(n));
    } else if m / 10 == n / 10 {
      BeforeLast(Decimal(m / 10), Decimal(n / 10), DigitChar(m % 10), DigitChar(n % 10));
    } else {
      DecimalOrder(m / 10, n / 10);
      BeforePrefix(Decimal(m / 10), Decimal(n / 10), [DigitChar(m % 10)], [DigitChar(n % 10)]);
    }
  }

  /** A published name is its due time in decimal, then a dash. */
  lemma NameStartsWithDue(dueMs: nat, uuid: string, attempts: nat) returns (rest: string)
    ensures NameOf(PublishedOrigin(dueMs, uuid), attempts) == Decimal(dueMs) + rest
    ensures rest != "" && rest[0] == '-'
  {
    var head, origin := Decimal(dueMs), PublishedOrigin(dueMs, uuid);
    var tail := "-" + uuid;
    Assoc(head, "-", uuid);
    if attempts == 0 {
      Assoc(head, tail, SUFFIX);
      rest := tail + SUFFIX;
    } else {
      Assoc(head, tail, "#");
      Assoc(head, tail + "#", Decimal(attempts));
      Assoc(head, tail + "#" + Decimal(attempts), SUFFIX);
      rest := tail + "#" + Decimal(attempts) + SUFFIX;
    }
  }

  predicate AllDigits(s: string) { forall k :: 0 <= k < |s| ==> IsDigit(s[k]) }

  /** A dash sorts before every digit, so what follows the numerals decides nothing. */
  lemma {:induction false} BeforeDashes(a: string, b: string, s: string, t: string)
    requires AllDigits(a) && AllDigits(b) && a != b
    requires s != "" && t != "" && s[0] == t[0] == '-'
    ensures Before(a + s, b + t) <==> Before(a, b)
  {
    if a == "" {
      assert (a + s)[0] == '-' && IsDigit((b + t)[0]);
    } else if b == "" {
      assert (b + t)[0] == '-' && IsDigit((a + s)[0]);
    } else if a[0] == b[0] {
      assert (a + s)[1..] == a[1..] + s;
      assert (b + t)[1..] == b[1..] + t;
      assert a == [a[0]] + a[1..] && b == [b[0]] + b[1..];
      BeforeDashes(a[1..], b[1..], s, t);
    }
  }

  /** Scanning names in order is scanning messages by due time written in decimal,
      whatever their counts.  That is the order of the due times themselves when they
      have the same number of digits. */
  lemma DueOrderIsNameOrder(d1: nat, u1: string, k1: nat, d2: nat, u2: string, k2: nat)
    requires d1 != d2
    ensures Before(NameOf(PublishedOrigin(d1, u1), k1), NameOf(PublishedOrigin(d2, u2), k2))
            <==> Before(Decimal(d1), Decimal(d2))
    ensures |Decimal(d1)| == |Decimal(d2)| ==> (Before(Decimal(d1), Decimal(d2)) <==> d1 < d2)
  {
    ValueOfDecimal(d1);
    ValueOfDecimal(d2);
    var rest1 := NameStartsWithDue(d1, u1, k1);
    var rest2 := NameStartsWithDue(d2, u2, k2);
    BeforeDashes(Decimal(d1), Decimal(d2), rest1, rest2);
    BeforeTotal(Decimal(d1), Decimal(d2));
    if |Decimal(d1)| == |Decimal(d2)| {
      if d1 < d2 {
        DecimalOrder(d1, d2);
      } else {
        DecimalOrder(d2, d1);
      }
    }
  }

  /** The digit count matters: 9 ms falls due before 10 ms but sorts after it. */
  lemma DueOrderNeedsEqualDigits()
    ensures Before(NameOf(PublishedOrigin(10, "x"), 0), NameOf(PublishedOrigin(9, "x"), 0))
  {
    var a, b := NameOf(PublishedOrigin(10, "x"), 0), NameOf(PublishedOrigin(9, "x"), 0);
    assert a[0] == '1' && b[0] == '9';
  }

  predicate IsLeast(n: string, names: set<string>) {
    n in names && forall m :: m in names ==> m == n || Before(n, m)
  }

  lemma LeastOfTwo(x: string, n: string, rest: set<string>)
    requires IsLeast(n, rest) && Before(x, n)
    ensures IsLeast(x, rest + {x})
  {
    forall m | m in rest && m != n
      ensures Before(x, m)
    {
      BeforeTransitive(x, n, m);
    }
  }

  lemma LeastExists(names: set<string>)
    requires names != {}
    ensures exists n :: IsLeast(n, names)
  {
    var x :| x in names;
    var rest := names - {x};
    assert names == rest + {x};
    if rest == {} {
      assert IsLeast(x, names);
    } else {
      LeastExists(rest);
      var n :| IsLeast(n, rest);
      BeforeTotal(x, n);
      if Before(x, n) {
        LeastOfTwo(x, n, rest);
      } else {
        assert IsLeast(n, names);
      }
    }
  }
}
