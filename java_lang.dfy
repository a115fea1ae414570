/**
 * The pieces of java.lang that the worker manager's behaviour depends on, restated
 * over Dafny strings: String.trim, String.split, String.compareTo,
 * String.equalsIgnoreCase / toUpperCase (ASCII letters), Integer.parseInt,
 * Long.parseLong, a decimal subset of Double.parseDouble, and int wrap-around.
 */
module JavaLang {

  datatype Option<+T> = None | Some(value: T)

  /**
   * The argument of an `equals(Object)` call: the receiver itself (`this == obj`),
   * another instance of the receiver's class, or anything else, null included.
   */
  datatype Obj<+T> = Itself | Instance(value: T) | Foreign

  /** The value of an expression that may throw NullPointerException instead. */
  datatype Eval<+T> = Value(value: T) | NullPointer

  const IntMin: int := -0x8000_0000
  const IntMax: int := 0x7fff_ffff
  const LongMin: int := -0x8000_0000_0000_0000
  const LongMax: int := 0x7fff_ffff_ffff_ffff

  predicate IsInt(x: int) { IntMin <= x <= IntMax }

  /** A Java `int`. */
  type Int32 = x: int | IsInt(x)

  /** `++x` on a Java int: wraps from Integer.MAX_VALUE to Integer.MIN_VALUE. */
  function Increment(x: int): (r: int)
    requires IsInt(x)
    ensures IsInt(r)
    ensures (r - x - 1) % 0x1_0000_0000 == 0
  {
    if x == IntMax then IntMin else x + 1
  }

  // ---------------------------------------------------------------- trim

  /** String.trim removes every leading and trailing char whose code is <= U+0020. */
  predicate IsTrimmable(c: char) { c <= ' ' }

  /** Number of trimmable chars at the front of `s`. */
  function Lead(s: string): (n: nat)
    ensures n <= |s|
    ensures forall k :: 0 <= k < n ==> IsTrimmable(s[k])
    ensures n < |s| ==> !IsTrimmable(s[n])
  {
    if s != [] && IsTrimmable(s[0]) then 1 + Lead(s[1..]) else 0
  }

  /** Index just past the last non-trimmable char of `s` (0 when there is none). */
  function Tail(s: string): (n: nat)
    ensures n <= |s|
    ensures forall k :: n <= k < |s| ==> IsTrimmable(s[k])
    ensures n > 0 ==> !IsTrimmable(s[n - 1])
  {
    if s != [] && IsTrimmable(s[|s| - 1]) then Tail(s[..|s| - 1]) else |s|
  }

  function Trim(s: string): (t: string)
    ensures t == [] || (!IsTrimmable(t[0]) && !IsTrimmable(t[|t| - 1]))
    ensures |t| <= |s|
  {
    if Lead(s) == |s| then [] else s[Lead(s)..Tail(s)]
  }

  /** A string without leading or trailing trimmable chars is its own trim. */
  lemma {:induction false} TrimOfTrimmed(s: string)
    requires s == [] || (!IsTrimmable(s[0]) && !IsTrimmable(s[|s| - 1]))
    ensures Trim(s) == s
  {
    if s != [] {
      assert Lead(s) == 0;
      assert Tail(s) == |s|;
    }
  }

  /** String.trim is idempotent. */
  lemma TrimIdempotent(s: string)
    ensures Trim(Trim(s)) == Trim(s)
  {
    TrimOfTrimmed(Trim(s));
  }

  /** Every char of the trimmed text is a char of the original, at a fixed offset. */
  lemma TrimIsInfix(s: string)
    ensures Trim(s) == [] || Trim(s) == s[Lead(s)..Lead(s) + |Trim(s)|]
  {
  }

  /** Trim is empty exactly when every char is trimmable. */
  lemma TrimEmptyIff(s: string)
    ensures Trim(s) == [] <==> forall k :: 0 <= k < |s| ==> IsTrimmable(s[k])
  {
    if Lead(s) < |s| {
      assert !IsTrimmable(s[Lead(s)]);
      assert Lead(s) < Tail(s);
    }
  }

  /** Trimming "t + ' '" of an already trimmed `t` gives `t` back. */
  lemma {:induction false} TrimDropsAppendedSpace(t: string)
    requires t == Trim(t)
    ensures Trim(t + " ") == t
  {
    var s := t + " ";
    if t == [] {
      assert Lead(s) == 1;
    } else {
      assert !IsTrimmable(t[0]) && !IsTrimmable(t[|t| - 1]);
      assert Lead(s) == 0;
      assert s[..|s| - 1] == t;
      assert Tail(t) == |t|;
      assert Tail(s) == |t|;
      assert s[0..|t|] == t;
    }
  }

  // ---------------------------------------------------------------- index and split

  /** String.indexOf(c): the first index of `c`, or -1 when `c` does not occur. */
  function IndexOf(s: string, c: char): (i: int)
    ensures -1 <= i < |s|
    ensures i >= 0 ==> s[i] == c && c !in s[..i]
    ensures i < 0 ==> c !in s
  {
    if s == [] then -1
    else if s[0] == c then 0
    else
      var j := IndexOf(s[1..], c);
      assert s == [s[0]] + s[1..];
      if j < 0 then -1 else j + 1
  }

  /** s.split(" ", 2): at most two parts, cut at the first space; no part is dropped. */
  function SplitLimit2(s: string): (parts: seq<string>)
    ensures 1 <= |parts| <= 2
    ensures |parts| == 2 <==> ' ' in s
    ensures |parts| == 1 ==> parts[0] == s
    ensures |parts| == 2 ==> ' ' !in parts[0] && s == parts[0] + " " + parts[1]
  {
    var i := IndexOf(s, ' ');
    if i < 0 then [s]
    else
      assert s == s[..i] + " " + s[i + 1..];
      [s[..i], s[i + 1..]]
  }

  /** The text of `s` cut at every space, keeping every (possibly empty) piece. */
  function Pieces(s: string): (p: seq<string>)
    ensures |p| >= 1
    ensures forall k :: 0 <= k < |p| ==> ' ' !in p[k]
    decreases |s|
  {
    var i := IndexOf(s, ' ');
    if i < 0 then [s]
    else
      var rest := Pieces(s[i + 1..]);
      SpaceFreeCons(s[..i], rest);
      [s[..i]] + rest
  }

  lemma SpaceFreeCons(head: string, rest: seq<string>)
    requires ' ' !in head && forall k :: 0 <= k < |rest| ==> ' ' !in rest[k]
    ensures forall k :: 0 <= k < |[head] + rest| ==> ' ' !in ([head] + rest)[k]
  {
  }

  function DropTrailingEmpty(p: seq<string>): (q: seq<string>)
    ensures |q| <= |p| && q == p[..|q|]
    ensures q == [] || q[|q| - 1] != ""
    ensures forall k :: |q| <= k < |p| ==> p[k] == ""
  {
    if p != [] && p[|p| - 1] == "" then DropTrailingEmpty(p[..|p| - 1]) else p
  }

  /**
   * s.split(" "): the pieces between spaces with trailing empty pieces removed;
   * a string without any space splits to itself (so "" splits to [""]).
   */
  function SplitAll(s: string): (parts: seq<string>)
    ensures forall k :: 0 <= k < |parts| ==> ' ' !in parts[k]
  {
    if ' ' !in s then [s] else DropTrailingEmpty(Pieces(s))
  }

  /** Joining the pieces with single spaces gives the original text back. */
  lemma {:induction false} PiecesJoin(s: string)
    ensures Join(Pieces(s), " ") == s
    decreases |s|
  {
    var i := IndexOf(s, ' ');
    if i < 0 {
      assert Pieces(s) == [s];
    } else {
      var head, rest := s[..i], s[i + 1..];
      CutAt(s, i);
      PiecesAfterWord(head, rest);
      PiecesJoin(rest);
      JoinCons(head, Pieces(rest), " ");
    }
  }

  /** The first space of "w + ' ' + rest" is the one after the space-free word w. */
  lemma {:induction false} FirstSpaceAfterWord(w: string, rest: string)
    requires ' ' !in w
    ensures IndexOf(w + " " + rest, ' ') == |w|
  {
    var s := w + " " + rest;
    if w != [] {
      assert s[1..] == w[1..] + " " + rest;
      FirstSpaceAfterWord(w[1..], rest);
    }
  }

  /** Splitting "w + ' ' + rest" at every space gives w, then the pieces of rest. */
  lemma PiecesAfterWord(w: string, rest: string)
    requires ' ' !in w
    ensures Pieces(w + " " + rest) == [w] + Pieces(rest)
  {
    var s := w + " " + rest;
    FirstSpaceAfterWord(w, rest);
    assert s[..|w|] == w && s[|w| + 1..] == rest;
  }

  lemma CutAt(s: string, i: nat)
    requires i < |s| && s[i] == ' '
    ensures s == s[..i] + " " + s[i + 1..]
  {
  }

  function Join(parts: seq<string>, sep: string): string
  {
    if parts == [] then ""
    else if |parts| == 1 then parts[0]
    else parts[0] + sep + Join(parts[1..], sep)
  }

  lemma JoinCons(head: string, tail: seq<string>, sep: string)
    requires tail != []
    ensures Join([head] + tail, sep) == head + sep + Join(tail, sep)
  {
    assert ([head] + tail)[1..] == tail;
  }

  // ---------------------------------------------------------------- case

  function ToUpperChar(c: char): char
  {
    if 'a' <= c <= 'z' then (c as int - 32) as char else c
  }

  /** String.toUpperCase restricted to ASCII letters. */
  function ToUpperCase(s: string): (u: string)
    ensures |u| == |s|
    ensures forall k :: 0 <= k < |s| ==> u[k] == ToUpperChar(s[k])
  {
    if s == [] then [] else [ToUpperChar(s[0])] + ToUpperCase(s[1..])
  }

  /** String.equalsIgnoreCase on ASCII text. */
  predicate EqualsIgnoreCase(a: string, b: string)
  {
    ToUpperCase(a) == ToUpperCase(b)
  }

  /** Two strings are equal ignoring case iff they agree char by char after upper-casing. */
  lemma EqualsIgnoreCaseCharwise(a: string, b: string)
    ensures EqualsIgnoreCase(a, b) <==>
      |a| == |b| && forall k :: 0 <= k < |a| ==> ToUpperChar(a[k]) == ToUpperChar(b[k])
  {
    if |a| == |b| && forall k :: 0 <= k < |a| ==> ToUpperChar(a[k]) == ToUpperChar(b[k]) {
      assert ToUpperCase(a) == ToUpperCase(b);
    }
  }

  /** Strings equal ignoring case have the same length and agree at each position after upper-casing. */
  lemma EqualIgnoringCaseAt(a: string, b: string, k: int)
    requires EqualsIgnoreCase(a, b) && 0 <= k < |a|
    ensures |a| == |b| && ToUpperChar(a[k]) == ToUpperChar(b[k])
  {
    assert ToUpperCase(a)[k] == ToUpperCase(b)[k];
  }

  // ---------------------------------------------------------------- compareTo

  /**
   * String.compareTo: the difference of the first differing chars, or else the
   * difference of the lengths.
   */
  function CompareTo(a: string, b: string): int
  {
    if a == [] || b == [] then |a| - |b|
    else if a[0] != b[0] then a[0] as int - b[0] as int
    else CompareTo(a[1..], b[1..])
  }

  lemma {:induction false} CompareToZeroIff(a: string, b: string)
    ensures CompareTo(a, b) == 0 <==> a == b
  {
    if a != [] && b != [] && a[0] == b[0] {
      CompareToZeroIff(a[1..], b[1..]);
      assert a == [a[0]] + a[1..] && b == [b[0]] + b[1..];
    }
  }

  lemma {:induction false} CompareToAntisymmetric(a: string, b: string)
    ensures CompareTo(b, a) == -CompareTo(a, b)
  {
    if a != [] && b != [] && a[0] == b[0] {
      CompareToAntisymmetric(a[1..], b[1..]);
    }
  }

  lemma {:induction false} CompareToTransitive(a: string, b: string, c: string)
    requires CompareTo(a, b) <= 0 && CompareTo(b, c) <= 0
    ensures CompareTo(a, c) <= 0
  {
    if a != [] && b != [] && c != [] && a[0] == b[0] && b[0] == c[0] {
      CompareToTransitive(a[1..], b[1..], c[1..]);
    }
  }

  lemma AppendAssociative<T>(x: seq<T>, y: seq<T>, z: seq<T>)
    ensures x + (y + z) == (x + y) + z
  {
  }

  // ---------------------------------------------------------------- numbers

  predicate IsDigit(c: char) { '0' <= c <= '9' }

  predicate IsAsciiLetter(c: char) { 'a' <= c <= 'z' || 'A' <= c <= 'Z' }

  predicate AllDigits(s: string) { forall k :: 0 <= k < |s| ==> IsDigit(s[k]) }

  /** The value of a run of decimal digits, most significant first. */
  function DigitsValue(s: string): (v: nat)
    requires AllDigits(s)
  {
    if s == [] then 0 else 10 * DigitsValue(s[..|s| - 1]) + (s[|s| - 1] as int - '0' as int)
  }

  function Pow10(n: nat): (p: nat)
    ensures p >= 1
  {
    if n == 0 then 1 else 10 * Pow10(n - 1)
  }

  /**
   * Integer.parseInt / Long.parseLong: an optional '+' or '-', then at least one
   * decimal digit and nothing else, whose value lies in [lo, hi].
   */
  function ParseIntegral(s: string, lo: int, hi: int): (r: Option<int>)
    ensures r.Some? ==> lo <= r.value <= hi
    ensures r.Some? ==> s != [] && (IsDigit(s[0]) || s[0] == '-' || s[0] == '+')
  {
    if s == [] then None
    else
      var signed := s[0] == '-' || s[0] == '+';
      var digits := if signed then s[1..] else s;
      if digits == [] || !AllDigits(digits) then None
      else
        var v: int := if s[0] == '-' then -(DigitsValue(digits) as int) else DigitsValue(digits);
        if lo <= v <= hi then Some(v) else None
  }

  /** Integer.parseInt. */
  function ParseInt(s: string): (r: Option<int>)
    ensures r.Some? ==> IsInt(r.value)
  {
    ParseIntegral(s, IntMin, IntMax)
  }

  /** Long.parseLong. */
  function ParseLong(s: string): (r: Option<int>)
    ensures r.Some? ==> LongMin <= r.value <= LongMax
  {
    ParseIntegral(s, LongMin, LongMax)
  }

  /** Leading or trailing blanks make Integer.parseInt fail. */
  lemma ParseIntRejectsBlank(s: string)
    requires s != [] && (s[0] == ' ' || s[|s| - 1] == ' ')
    ensures ParseInt(s) == None
  {
  }

  /** The type suffixes Double.parseDouble and Float.parseFloat accept after the number. */
  predicate IsFloatSuffix(c: char)
  {
    c == 'd' || c == 'D' || c == 'f' || c == 'F'
  }

  /** An optional sign, digits, an optional '.' and more digits, at least one digit in all. */
  function PlainDecimal(t: string): (r: Option<real>)
    ensures r.Some? ==> t != []
  {
    if t == [] then None
    else
      var body := if t[0] == '-' || t[0] == '+' then t[1..] else t;
      var dot := IndexOf(body, '.');
      var whole := if dot < 0 then body else body[..dot];
      var frac := if dot < 0 then "" else body[dot + 1..];
      if !AllDigits(whole) || !AllDigits(frac) || |whole| + |frac| == 0 then None
      else
        var magnitude := DigitsValue(whole) as real + DigitsValue(frac) as real / Pow10(|frac|) as real;
        Some(if t[0] == '-' then -magnitude else magnitude)
  }

  /**
   * Double.parseDouble / Float.parseFloat on plain decimals: after String.trim, a plain
   * decimal, optionally followed by one of the suffixes d, D, f, F.
   */
  function ParseDecimal(s: string): (r: Option<real>)
    ensures r.Some? ==> Trim(s) != []
    ensures r.Some? ==> r == PlainDecimal(Trim(s)) || IsFloatSuffix(Trim(s)[|Trim(s)| - 1])
  {
    PlainDecimal(WithoutSuffix(Trim(s)))
  }

  /** The text with one trailing type suffix removed, if it has one. */
  function WithoutSuffix(t: string): (n: string)
    ensures n == t || (t != [] && IsFloatSuffix(t[|t| - 1]) && n == t[..|t| - 1])
    ensures n != [] ==> n[0] == t[0]
  {
    if t != [] && IsFloatSuffix(t[|t| - 1]) then t[..|t| - 1] else t
  }

  /** A type suffix after a plain decimal does not change its value: "100d" is 100. */
  lemma ParseDecimalSuffix(t: string, c: char)
    requires t == Trim(t) && IsFloatSuffix(c)
    ensures ParseDecimal(t + [c]) == PlainDecimal(t)
    ensures t != [] && !IsFloatSuffix(t[|t| - 1]) ==> ParseDecimal(t + [c]) == ParseDecimal(t)
  {
    var u := t + [c];
    TrimOfTrimmed(u);
    assert u[..|u| - 1] == t;
  }

  /** A decimal written without a '-' sign is never negative. */
  lemma ParseDecimalUnsigned(s: string)
    requires ParseDecimal(s).Some? && Trim(s)[0] != '-'
    ensures ParseDecimal(s).value >= 0.0
  {
    PlainDecimalUnsigned(WithoutSuffix(Trim(s)));
  }

  lemma PlainDecimalUnsigned(t: string)
    requires PlainDecimal(t).Some? && t[0] != '-'
    ensures PlainDecimal(t).value >= 0.0
  {
    var body := if t[0] == '-' || t[0] == '+' then t[1..] else t;
    var dot := IndexOf(body, '.');
    var whole := if dot < 0 then body else body[..dot];
    var frac := if dot < 0 then "" else body[dot + 1..];
    QuotientNonNegative(DigitsValue(frac), Pow10(|frac|));
  }

  /** A natural over a positive natural, as reals, is not negative. */
  lemma QuotientNonNegative(a: nat, b: nat)
    requires b >= 1
    ensures a as real / b as real >= 0.0
  {
    var q := a as real / b as real;
    assert q * b as real == a as real;
  }
}
