/**
 * Shared building blocks for the model: an Option type, the JavaScript
 * string operations the components use (trim, toLowerCase, includes,
 * split, join, number-to-string), sequence helpers and the stable sort
 * that Array.prototype.sort performs with a consistent comparator.
 */
module Base {

  datatype Option<+T> = None | Some(value: T)

  // ---------------------------------------------------------------------
  // Characters and whitespace
  // ---------------------------------------------------------------------

  /** The characters `String.prototype.trim` and the regex class `\s` treat as white space (ASCII, NBSP and BOM). */
  predicate IsSpace(c: char)
  {
    c == ' ' || c == '\t' || c == '\n' || c == '\r' || c == '\U{000B}' || c == '\U{000C}'
    || c == '\U{00A0}' || c == '\U{FEFF}'
  }

  predicate IsDigit(c: char) { '0' <= c <= '9' }

  /** `toLowerCase` on the ASCII letters; every other character is kept. */
  function LowerChar(c: char): (r: char)
    ensures 'A' <= c <= 'Z' ==> 'a' <= r <= 'z'
    ensures !('A' <= c <= 'Z') ==> r == c
  {
    if 'A' <= c <= 'Z' then (c as int + 32) as char else c
  }

  function ToLower(s: string): (r: string)
    ensures |r| == |s|
    ensures forall i :: 0 <= i < |s| ==> r[i] == LowerChar(s[i])
  {
    if s == [] then [] else [LowerChar(s[0])] + ToLower(s[1..])
  }

  /** Lower-casing twice is lower-casing once. */
  lemma ToLowerIdempotent(s: string)
    ensures ToLower(ToLower(s)) == ToLower(s)
  {
    assert forall i :: 0 <= i < |s| ==> ToLower(ToLower(s))[i] == LowerChar(ToLower(s)[i]);
  }

  function TrimStart(s: string): (r: string)
    ensures |r| <= |s|
    ensures r != [] ==> !IsSpace(r[0])
  {
    if s != [] && IsSpace(s[0]) then TrimStart(s[1..]) else s
  }

  function TrimEnd(s: string): (r: string)
    ensures |r| <= |s|
    ensures r != [] ==> !IsSpace(r[|r| - 1])
  {
    if s != [] && IsSpace(s[|s| - 1]) then TrimEnd(s[..|s| - 1]) else s
  }

  /** `String.prototype.trim`. */
  function Trim(s: string): string
  {
    TrimEnd(TrimStart(s))
  }

  /** A string that is empty after `trim()`, i.e. one that JavaScript treats as blank. */
  predicate IsBlank(s: string)
  {
    Trim(s) == []
  }

  /** `trim()` only removes characters: what is left is the part of the string between the white space it dropped. */
  lemma {:induction false} TrimStartSuffix(s: string)
    ensures TrimStart(s) == s[|s| - |TrimStart(s)|..]
    decreases |s|
  {
    if s != [] && IsSpace(s[0]) {
      TrimStartSuffix(s[1..]);
    }
  }

  lemma {:induction false} TrimEndPrefix(s: string)
    ensures TrimEnd(s) == s[..|TrimEnd(s)|]
    decreases |s|
  {
    if s != [] && IsSpace(s[|s| - 1]) {
      TrimEndPrefix(s[..|s| - 1]);
    }
  }

  /** A string that neither starts nor ends with white space is its own trim. */
  lemma TrimNoOuterSpace(x: string)
    requires x != [] && !IsSpace(x[0]) && !IsSpace(x[|x| - 1])
    ensures Trim(x) == x
  {
  }

  /** Trimming twice is trimming once. */
  lemma TrimIdempotent(s: string)
    ensures Trim(Trim(s)) == Trim(s)
  {
    var t := Trim(s);
    if t != [] {
      TrimEndPrefix(TrimStart(s));
      assert t[0] == TrimStart(s)[0];
      TrimNoOuterSpace(t);
    }
  }

  lemma {:induction false} TrimStartAllSpace(s: string)
    ensures TrimStart(s) == [] <==> forall i :: 0 <= i < |s| ==> IsSpace(s[i])
    decreases |s|
  {
    if s != [] && IsSpace(s[0]) {
      TrimStartAllSpace(s[1..]);
      assert forall i :: 1 <= i < |s| ==> s[i] == s[1..][i - 1];
    }
  }

  lemma {:induction false} TrimEndKeepsHead(s: string)
    requires s != [] && !IsSpace(s[0])
    ensures TrimEnd(s) != []
    decreases |s|
  {
    if |s| > 1 && IsSpace(s[|s| - 1]) {
      TrimEndKeepsHead(s[..|s| - 1]);
    }
  }

  /** A string is blank exactly when every character of it is white space. */
  lemma BlankIffAllSpace(s: string)
    ensures IsBlank(s) <==> forall i :: 0 <= i < |s| ==> IsSpace(s[i])
  {
    if TrimStart(s) != [] {
      TrimEndKeepsHead(TrimStart(s));
    }
    TrimStartAllSpace(s);
  }

  /** Leading white space does not change the result of `trim()`. */
  lemma {:induction false} TrimSpacePrefix(w: string, x: string)
    requires AllSpace(w)
    ensures Trim(w + x) == Trim(x)
    decreases |w|
  {
    if w != [] {
      assert (w + x)[1..] == w[1..] + x;
      TrimSpacePrefix(w[1..], x);
    } else {
      assert w + x == x;
    }
  }

  // ---------------------------------------------------------------------
  // Substrings, prefixes, splitting and joining
  // ---------------------------------------------------------------------

  /** `String.prototype.startsWith`. */
  predicate StartsWith(s: string, prefix: string)
  {
    |prefix| <= |s| && s[..|prefix|] == prefix
  }

  /** `String.prototype.includes`: `sub` occurs in `s` at some position. */
  predicate Contains(s: string, sub: string)
    decreases |s|
  {
    StartsWith(s, sub) || (s != [] && Contains(s[1..], sub))
  }

  /** The middle of a concatenation occurs in it. */
  lemma {:induction false} ContainsMiddle(a: string, b: string, c: string)
    ensures Contains(a + b + c, b)
    decreases |a|
  {
    if a == [] {
      assert (a + b + c)[..|b|] == b;
    } else {
      assert (a + b + c)[1..] == a[1..] + b + c;
      ContainsMiddle(a[1..], b, c);
    }
  }

  /**
   * `s.split(sep)` for a one-character separator: the pieces between the
   * separators, always at least one (so `"".split(',')` is `[""]`).
   */
  function Split(s: string, sep: char): (r: seq<string>)
    ensures |r| >= 1
    decreases |s|
  {
    if s == [] then [[]]
    else if s[0] == sep then [[]] + Split(s[1..], sep)
    else
      var rest := Split(s[1..], sep);
      [[s[0]] + rest[0]] + rest[1..]
  }

  lemma {:induction false} SplitNoSep(s: string, sep: char)
    requires sep !in s
    ensures Split(s, sep) == [s]
    decreases |s|
  {
    if s != [] {
      SplitNoSep(s[1..], sep);
      assert [s[0]] + s[1..] == s;
    }
  }

  /** Splitting at the first separator. */
  lemma {:induction false} SplitAtFirst(a: string, sep: char, b: string)
    requires sep !in a
    ensures Split(a + [sep] + b, sep) == [a] + Split(b, sep)
    decreases |a|
  {
    if a == [] {
      assert a + [sep] + b == [sep] + b;
      assert ([sep] + b)[1..] == b;
    } else {
      var s := a + [sep] + b;
      assert s[0] == a[0] && s[1..] == a[1..] + [sep] + b;
      SplitAtFirst(a[1..], sep, b);
      assert [a[0]] + a[1..] == a;
    }
  }

  /** `parts.join(sep)`. */
  function Join(parts: seq<string>, sep: string): (r: string)
  {
    if parts == [] then []
    else if |parts| == 1 then parts[0]
    else parts[0] + sep + Join(parts[1..], sep)
  }

  /**
   * The comma-separated list editor: `s.split(',').map(trim).filter(non-empty)`.
   */
  function ParseList(s: string): seq<string>
  {
    TrimmedPieces(Split(s, ','))
  }

  function TrimmedPieces(pieces: seq<string>): (r: seq<string>)
    ensures forall k :: 0 <= k < |r| ==> r[k] != [] && Trim(r[k]) == r[k]
  {
    if pieces == [] then []
    else if Trim(pieces[0]) == [] then TrimmedPieces(pieces[1..])
    else
      TrimIdempotent(pieces[0]);
      [Trim(pieces[0])] + TrimmedPieces(pieces[1..])
  }

  /**
   * An item that survives a join with ", " and a parse unchanged: not
   * empty, no white space at either end (so `Trim(x) == x`, see
   * `TrimNoOuterSpace`) and no comma.
   */
  predicate ListItem(x: string)
  {
    x != [] && !IsSpace(x[0]) && !IsSpace(x[|x| - 1]) && ',' !in x
  }

  predicate AllSpace(w: string)
  {
    forall i :: 0 <= i < |w| ==> IsSpace(w[i])
  }

  lemma TrimmedPiecesCons(piece: string, rest: seq<string>)
    requires Trim(piece) != []
    ensures TrimmedPieces([piece] + rest) == [Trim(piece)] + TrimmedPieces(rest)
  {
    assert ([piece] + rest)[0] == piece && ([piece] + rest)[1..] == rest;
  }

  lemma HeadTail<T>(xs: seq<T>)
    requires xs != []
    ensures [xs[0]] + xs[1..] == xs
  {
  }

  lemma JoinCons(xs: seq<string>, sep: string)
    requires |xs| >= 2
    ensures Join(xs, sep) == xs[0] + sep + Join(xs[1..], sep)
  {
  }

  lemma NoCommaAfterSpaces(w: string, x: string)
    requires AllSpace(w) && ',' !in x
    ensures ',' !in w + x
  {
  }

  lemma ParseJoinedSingle(w: string, x: string)
    requires AllSpace(w) && ListItem(x)
    ensures TrimmedPieces(Split(w + x, ',')) == [x]
  {
    TrimSpacePrefix(w, x);
    NoCommaAfterSpaces(w, x);
    SplitNoSep(w + x, ',');
    TrimmedPiecesCons(w + x, []);
  }

  lemma ParseJoinedStep(w: string, x: string, rest: string)
    requires AllSpace(w) && ListItem(x)
    ensures TrimmedPieces(Split(w + (x + ", " + rest), ',')) == [x] + TrimmedPieces(Split(" " + rest, ','))
  {
    TrimSpacePrefix(w, x);
    NoCommaAfterSpaces(w, x);
    var tail := " " + rest;
    assert w + (x + ", " + rest) == (w + x) + [','] + tail;
    SplitAtFirst(w + x, ',', tail);
    TrimmedPiecesCons(w + x, Split(tail, ','));
  }

  predicate AllListItems(xs: seq<string>)
  {
    xs == [] || (ListItem(xs[0]) && AllListItems(xs[1..]))
  }

  lemma {:induction false} AllListItemsAt(xs: seq<string>)
    requires forall k :: 0 <= k < |xs| ==> ListItem(xs[k])
    ensures AllListItems(xs)
    decreases |xs|
  {
    if xs != [] {
      assert ListItem(xs[0]);
      forall k | 0 <= k < |xs[1..]| ensures ListItem(xs[1..][k]) {
        assert xs[1..][k] == xs[k + 1];
      }
      AllListItemsAt(xs[1..]);
    }
  }

  lemma {:induction false} ParseJoinedAfterSpaces(w: string, xs: seq<string>)
    requires xs != []
    requires AllSpace(w)
    requires AllListItems(xs)
    ensures TrimmedPieces(Split(w + Join(xs, ", "), ',')) == xs
    decreases |xs|
  {
    var x, tail := xs[0], xs[1..];
    assert ListItem(x);
    if |xs| == 1 {
      ParseJoinedSingle(w, x);
    } else {
      var rest := Join(tail, ", ");
      JoinCons(xs, ", ");
      ParseJoinedStep(w, x, rest);
      assert AllSpace(" ");
      ParseJoinedAfterSpaces(" ", tail);
      calc {
        TrimmedPieces(Split(w + Join(xs, ", "), ','));
        TrimmedPieces(Split(w + (x + ", " + rest), ','));
        [x] + TrimmedPieces(Split(" " + rest, ','));
        [x] + tail;
        { HeadTail(xs); }
        xs;
      }
    }
  }

  /**
   * Joining list items with ", " (the edit form) and parsing the text back
   * (the submit handler) gives the original list.
   */
  lemma ParseJoinRoundTrip(xs: seq<string>)
    requires forall k :: 0 <= k < |xs| ==> ListItem(xs[k])
    ensures ParseList(Join(xs, ", ")) == xs
  {
    if xs == [] {
      assert Split([], ',') == [[]];
      assert Trim([]) == [];
    } else {
      assert AllSpace([]);
      AllListItemsAt(xs);
      ParseJoinedAfterSpaces([], xs);
      assert [] + Join(xs, ", ") == Join(xs, ", ");
    }
  }

  // ---------------------------------------------------------------------
  // Numbers as text
  // ---------------------------------------------------------------------

  function DigitChar(d: nat): (c: char)
    requires d < 10
    ensures IsDigit(c)
  {
    ('0' as int + d) as char
  }

  /** Decimal representation of a natural number, as `Number.prototype.toString` prints it. */
  function NatToString(n: nat): (r: string)
    ensures |r| >= 1
    ensures forall i :: 0 <= i < |r| ==> IsDigit(r[i])
    decreases n
  {
    if n < 10 then [DigitChar(n)] else NatToString(n / 10) + [DigitChar(n % 10)]
  }

  function IntToString(i: int): string
  {
    if i < 0 then "-" + NatToString(-i) else NatToString(i)
  }

  function DigitValue(c: char): (d: nat)
    requires IsDigit(c)
    ensures d < 10
  {
    c as int - '0' as int
  }

  /** Reads a string of decimal digits. */
  function ParseDigits(s: string): (n: nat)
    requires forall i :: 0 <= i < |s| ==> IsDigit(s[i])
  {
    if s == [] then 0 else ParseDigits(s[..|s| - 1]) * 10 + DigitValue(s[|s| - 1])
  }

  lemma {:induction false} ParseNatToString(n: nat)
    ensures ParseDigits(NatToString(n)) == n
    decreases n
  {
    if n >= 10 {
      var s := NatToString(n);
      assert s[..|s| - 1] == NatToString(n / 10);
      ParseNatToString(n / 10);
    }
  }

  /** Decimal numbers from 10^(k-1) up to 10^k - 1 print with exactly k digits. */
  lemma {:induction false} NatToStringLength(n: nat, k: nat)
    requires k >= 1 && n < Pow10(k) && (k == 1 || Pow10(k - 1) <= n)
    ensures |NatToString(n)| == k
    decreases n
  {
    assert Pow10(1) == 10;
    if n >= 10 {
      assert k >= 2;
      var m := Pow10(k - 1);
      assert n < 10 * m;
      assert n / 10 < m;
      if k > 2 {
        assert 10 * Pow10(k - 2) <= n;
        assert Pow10(k - 2) <= n / 10;
      }
      NatToStringLength(n / 10, k - 1);
    }
  }

  /** The longest prefix of `s` made of decimal digits. */
  function DigitPrefix(s: string): (r: string)
    ensures |r| <= |s| && r == s[..|r|]
    ensures forall i :: 0 <= i < |r| ==> IsDigit(r[i])
    ensures |r| < |s| ==> !IsDigit(s[|r|])
  {
    if s != [] && IsDigit(s[0]) then [s[0]] + DigitPrefix(s[1..]) else []
  }

  lemma {:induction false} DigitPrefixAll(s: string)
    requires forall i :: 0 <= i < |s| ==> IsDigit(s[i])
    ensures DigitPrefix(s) == s
    decreases |s|
  {
    if s != [] {
      DigitPrefixAll(s[1..]);
      HeadTail(s);
    }
  }

  predicate IsHexDigit(c: char) { IsDigit(c) || 'a' <= c <= 'f' || 'A' <= c <= 'F' }

  function HexValue(c: char): (d: nat)
    requires IsHexDigit(c)
    ensures d < 16
  {
    if IsDigit(c) then DigitValue(c) else if 'a' <= c <= 'f' then c as int - 'a' as int + 10 else c as int - 'A' as int + 10
  }

  /** The longest prefix of `s` made of hexadecimal digits. */
  function HexPrefix(s: string): (r: string)
    ensures forall i :: 0 <= i < |r| ==> IsHexDigit(r[i])
  {
    if s != [] && IsHexDigit(s[0]) then [s[0]] + HexPrefix(s[1..]) else []
  }

  function ParseHex(s: string): nat
    requires forall i :: 0 <= i < |s| ==> IsHexDigit(s[i])
  {
    if s == [] then 0 else ParseHex(s[..|s| - 1]) * 16 + HexValue(s[|s| - 1])
  }

  /**
   * `parseInt(s)` without a radix: leading white space is skipped, one sign
   * is read, a `0x`/`0X` prefix selects hexadecimal, and the longest run of
   * digits that follows is the value; `None` stands for `NaN` (no digits).
   */
  function ParseInt(s: string): Option<int>
  {
    ParseSigned(TrimStart(s))
  }

  function ParseSigned(t: string): Option<int>
  {
    if t != [] && t[0] == '-' then
      match ParseUnsigned(t[1..])
      case None => None
      case Some(v) => Some(0 - v as int)
    else if t != [] && t[0] == '+' then Widen(ParseUnsigned(t[1..]))
    else Widen(ParseUnsigned(t))
  }

  function Widen(o: Option<nat>): Option<int>
  {
    match o
    case None => None
    case Some(v) => Some(v as int)
  }

  function ParseUnsigned(u: string): Option<nat>
  {
    if |u| >= 2 && u[0] == '0' && (u[1] == 'x' || u[1] == 'X') then
      var h := HexPrefix(u[2..]);
      if h == [] then None else Some(ParseHex(h))
    else
      var d := DigitPrefix(u);
      if d == [] then None else Some(ParseDigits(d))
  }

  lemma ParseUnsignedDigits(m: nat)
    ensures ParseUnsigned(NatToString(m)) == Some(m)
  {
    var u := NatToString(m);
    assert !(|u| >= 2 && u[0] == '0' && (u[1] == 'x' || u[1] == 'X')) by {
      assert IsDigit(u[0]);
      if |u| >= 2 { assert IsDigit(u[1]); }
    }
    DigitPrefixAll(u);
    ParseNatToString(m);
  }

  /** `parseInt` reads back every integer as printed. */
  lemma ParseIntToString(n: int)
    ensures ParseInt(IntToString(n)) == Some(n)
  {
    var m: nat := if n < 0 then -n else n;
    var u := NatToString(m);
    ParseUnsignedDigits(m);
    assert IsDigit(u[0]);
    if n < 0 {
      var s := "-" + u;
      assert s[0] == '-' && s[1..] == u;
      assert TrimStart(s) == s;
    } else {
      assert TrimStart(u) == u;
    }
  }

  /** `parseInt` of a string with no digit after its white space and sign is `NaN`. */
  lemma ParseIntNoDigits(s: string)
    requires var t := TrimStart(s); t == [] || (!IsDigit(t[0]) && t[0] != '-' && t[0] != '+')
    ensures ParseInt(s) == None
  {
  }

  function Pow10(k: nat): (r: nat)
    ensures r >= 1
  {
    if k == 0 then 1 else 10 * Pow10(k - 1)
  }

  /** `String.prototype.padStart(2, '0')`. */
  function PadStart2(s: string): (r: string)
    ensures |r| == if |s| < 2 then 2 else |s|
    ensures r[|r| - |s|..] == s
  {
    if |s| == 0 then "00" else if |s| == 1 then "0" + s else s
  }

  // ---------------------------------------------------------------------
  // Sequences
  // ---------------------------------------------------------------------

  /** `Array.prototype.filter`. */
  function Filter<T>(s: seq<T>, p: T -> bool): (r: seq<T>)
    ensures |r| <= |s|
    ensures forall k :: 0 <= k < |r| ==> p(r[k])
  {
    if s == [] then [] else (if p(s[0]) then [s[0]] else []) + Filter(s[1..], p)
  }

  /** The filter keeps exactly the elements that pass. */
  lemma {:induction false} FilterMember<T>(s: seq<T>, p: T -> bool, x: T)
    ensures x in Filter(s, p) <==> x in s && p(x)
    decreases |s|
  {
    if s != [] {
      FilterMember(s[1..], p, x);
      assert s == [s[0]] + s[1..];
    }
  }

  lemma {:induction false} FilterConcat<T>(a: seq<T>, b: seq<T>, p: T -> bool)
    ensures Filter(a + b, p) == Filter(a, p) + Filter(b, p)
    decreases |a|
  {
    if a != [] {
      assert (a + b)[1..] == a[1..] + b;
      FilterConcat(a[1..], b, p);
    } else {
      assert a + b == b;
    }
  }

  /** A filter that every element passes changes nothing. */
  lemma {:induction false} FilterKeepAll<T>(s: seq<T>, p: T -> bool)
    requires forall k :: 0 <= k < |s| ==> p(s[k])
    ensures Filter(s, p) == s
    decreases |s|
  {
    if s != [] {
      FilterKeepAll(s[1..], p);
      assert [s[0]] + s[1..] == s;
    }
  }

  /** Filters by two predicates that agree everywhere give the same result. */
  lemma {:induction false} FilterSame<T>(s: seq<T>, p: T -> bool, q: T -> bool)
    requires forall x :: p(x) == q(x)
    ensures Filter(s, p) == Filter(s, q)
    decreases |s|
  {
    if s != [] {
      FilterSame(s[1..], p, q);
    }
  }

  ghost predicate NoDup<T>(s: seq<T>)
  {
    forall i, j :: 0 <= i < j < |s| ==> s[i] != s[j]
  }

  lemma NoDupCons<T>(s: seq<T>)
    requires s != []
    ensures NoDup(s) <==> s[0] !in s[1..] && NoDup(s[1..])
  {
    var t := s[1..];
    if s[0] !in t && NoDup(t) {
      forall i, j | 0 <= i < j < |s| ensures s[i] != s[j] {
        assert s[j] == t[j - 1];
        if i > 0 { assert s[i] == t[i - 1]; }
      }
    }
    if NoDup(s) {
      forall j | 0 <= j < |t| ensures t[j] != s[0] { assert t[j] == s[j + 1]; }
      forall i, j | 0 <= i < j < |t| ensures t[i] != t[j] { assert t[i] == s[i + 1] && t[j] == s[j + 1]; }
    }
  }

  /** A duplicate-free sequence is one in which every element occurs at most once. */
  lemma {:induction false} NoDupMultiset<T>(s: seq<T>)
    ensures NoDup(s) <==> forall x :: multiset(s)[x] <= 1
    decreases |s|
  {
    if s != [] {
      var t := s[1..];
      NoDupMultiset(t);
      NoDupCons(s);
      assert s == [s[0]] + t;
      assert multiset(s) == multiset{s[0]} + multiset(t);
      if forall x :: multiset(s)[x] <= 1 {
        forall x ensures multiset(t)[x] <= 1 {
          assert multiset(s)[x] <= 1;
        }
        assert multiset(s)[s[0]] <= 1;
        assert multiset(t)[s[0]] == 0;
      }
      if NoDup(s) {
        forall x ensures multiset(s)[x] <= 1 {
          if x == s[0] { assert multiset(t)[x] == 0; }
        }
      }
    }
  }

  /** Filtering a duplicate-free sequence leaves it duplicate-free. */
  lemma {:induction false} FilterNoDup<T>(s: seq<T>, p: T -> bool)
    requires NoDup(s)
    ensures NoDup(Filter(s, p))
    decreases |s|
  {
    if s != [] {
      FilterNoDup(s[1..], p);
      if p(s[0]) {
        var t := Filter(s[1..], p);
        FilterMember(s[1..], p, s[0]);
        assert s[0] !in s[1..] by {
          forall j | 0 <= j < |s| - 1 ensures s[1..][j] != s[0] { assert s[j + 1] != s[0]; }
        }
        var r := [s[0]] + t;
        forall i, j | 0 <= i < j < |r| ensures r[i] != r[j] {
          if i == 0 { assert r[j] == t[j - 1]; assert t[j - 1] in t; }
          else { assert r[i] == t[i - 1] && r[j] == t[j - 1]; }
        }
      }
    }
  }

  /** `a` is `b` with some elements left out, the rest in their order. */
  ghost predicate IsSubseq<T>(a: seq<T>, b: seq<T>)
    decreases |b|
  {
    a == [] || (b != [] && ((a[0] == b[0] && IsSubseq(a[1..], b[1..])) || IsSubseq(a, b[1..])))
  }

  /** `filter` keeps an order-preserving subsequence. */
  lemma {:induction false} FilterSubseq<T>(s: seq<T>, p: T -> bool)
    ensures IsSubseq(Filter(s, p), s)
    decreases |s|
  {
    if s != [] {
      FilterSubseq(s[1..], p);
      if p(s[0]) {
        assert Filter(s, p) == [s[0]] + Filter(s[1..], p);
        assert Filter(s, p)[0] == s[0] && Filter(s, p)[1..] == Filter(s[1..], p);
      } else {
        assert Filter(s, p) == Filter(s[1..], p);
      }
    }
  }

  lemma {:induction false} SubseqRefl<T>(s: seq<T>)
    ensures IsSubseq(s, s)
    decreases |s|
  {
    if s != [] {
      SubseqRefl(s[1..]);
    }
  }

  lemma {:induction false} SubseqTrans<T>(a: seq<T>, b: seq<T>, c: seq<T>)
    requires IsSubseq(a, b) && IsSubseq(b, c)
    ensures IsSubseq(a, c)
    decreases |c|
  {
    if a != [] && c != [] {
      if b != [] && b[0] == c[0] && IsSubseq(b[1..], c[1..]) {
        if a[0] == b[0] && IsSubseq(a[1..], b[1..]) {
          SubseqTrans(a[1..], b[1..], c[1..]);
        } else {
          SubseqTrans(a, b[1..], c[1..]);
        }
      } else {
        SubseqTrans(a, b, c[1..]);
      }
    }
  }

  /** `String.prototype.endsWith`. */
  predicate EndsWith(s: string, suffix: string)
  {
    |suffix| <= |s| && s[|s| - |suffix|..] == suffix
  }

  /** `Array.prototype.indexOf`, with `None` for -1. */
  function IndexOf<T(==)>(s: seq<T>, x: T): (r: Option<nat>)
    ensures r.Some? ==> r.value < |s| && s[r.value] == x && forall j :: 0 <= j < r.value ==> s[j] != x
    ensures r.None? ==> x !in s
  {
    if s == [] then None
    else if s[0] == x then Some(0)
    else match IndexOf(s[1..], x)
      case None => None
      case Some(k) => Some(k + 1)
  }

  /** `parts.map(p => p.trim())`. */
  function TrimAll(parts: seq<string>): (r: seq<string>)
    ensures |r| == |parts|
    ensures forall k :: 0 <= k < |r| ==> r[k] == Trim(parts[k])
  {
    if parts == [] then [] else [Trim(parts[0])] + TrimAll(parts[1..])
  }

  predicate NotBlank(s: string) { !IsBlank(s) }

  /** `Array.prototype.slice(0, n)`. */
  function Take<T>(s: seq<T>, n: nat): (r: seq<T>)
    ensures |r| == if n < |s| then n else |s|
    ensures forall i :: 0 <= i < |r| ==> r[i] == s[i]
  {
    if n < |s| then s[..n] else s
  }

  function Reverse<T>(s: seq<T>): (r: seq<T>)
    ensures |r| == |s|
  {
    if s == [] then [] else Reverse(s[1..]) + [s[0]]
  }

  lemma {:induction false} ReverseAt<T>(s: seq<T>, k: nat)
    requires k < |s|
    ensures Reverse(s)[k] == s[|s| - 1 - k]
    decreases |s|
  {
    if k < |s| - 1 {
      ReverseAt(s[1..], k);
    }
  }

  /** Number of elements of `s` satisfying `p`. */
  function Count<T>(s: seq<T>, p: T -> bool): (n: nat)
    ensures n <= |s|
  {
    |Filter(s, p)|
  }

  // ---------------------------------------------------------------------
  // Stable sort
  // ---------------------------------------------------------------------

  /** `le(a, b)` holds when the comparator does not put `a` after `b` (compare(a, b) <= 0). */
  ghost predicate TotalPreorder<T(!new)>(le: (T, T) -> bool)
  {
    (forall a, b :: le(a, b) || le(b, a))
    && (forall a, b, c :: le(a, b) && le(b, c) ==> le(a, c))
  }

  ghost predicate Sorted<T>(s: seq<T>, le: (T, T) -> bool)
  {
    forall i, j :: 0 <= i < j < |s| ==> le(s[i], s[j])
  }

  function Insert<T>(x: T, s: seq<T>, le: (T, T) -> bool): (r: seq<T>)
    ensures |r| == |s| + 1
    ensures multiset(r) == multiset(s) + multiset{x}
  {
    if s == [] then [x]
    else if le(x, s[0]) then [x] + s
    else
      assert s == [s[0]] + s[1..];
      [s[0]] + Insert(x, s[1..], le)
  }

  /**
   * `Array.prototype.sort(compare)`: a stable sort, given here as insertion
   * sort. Each element is inserted in front of the first element it does
   * not compare after, so elements the comparator ties keep their order.
   */
  function SortBy<T>(s: seq<T>, le: (T, T) -> bool): (r: seq<T>)
    ensures |r| == |s|
    ensures multiset(r) == multiset(s)
  {
    if s == [] then []
    else
      assert s == [s[0]] + s[1..];
      Insert(s[0], SortBy(s[1..], le), le)
  }

  lemma {:induction false} InsertSorted<T(!new)>(x: T, s: seq<T>, le: (T, T) -> bool)
    requires TotalPreorder(le)
    requires Sorted(s, le)
    ensures Sorted(Insert(x, s, le), le)
    decreases |s|
  {
    if s != [] && !le(x, s[0]) {
      InsertSorted(x, s[1..], le);
      var t := Insert(x, s[1..], le);
      assert le(s[0], x);
      forall j | 0 <= j < |t| ensures le(s[0], t[j]) {
        assert t[j] in multiset(s[1..]) + multiset{x};
        if t[j] != x {
          var k :| 0 <= k < |s[1..]| && s[1..][k] == t[j];
          assert s[k + 1] == t[j];
        }
      }
    }
  }

  /** The sort's output is ordered by `le` whenever `le` is a total preorder. */
  lemma {:induction false} SortBySorted<T(!new)>(s: seq<T>, le: (T, T) -> bool)
    requires TotalPreorder(le)
    ensures Sorted(SortBy(s, le), le)
    decreases |s|
  {
    if s != [] {
      SortBySorted(s[1..], le);
      InsertSorted(s[0], SortBy(s[1..], le), le);
    }
  }

  /** The elements of `s` that fail `p`, in order: the complement of `Filter(s, p)`. */
  function FilterOut<T>(s: seq<T>, p: T -> bool): (r: seq<T>)
    ensures |r| <= |s|
    ensures forall k :: 0 <= k < |r| ==> !p(r[k])
  {
    if s == [] then [] else (if p(s[0]) then [] else [s[0]]) + FilterOut(s[1..], p)
  }

  lemma {:induction false} InsertFlagged<T>(x: T, a: seq<T>, b: seq<T>, le: (T, T) -> bool, p: T -> bool)
    requires forall u, v :: le(u, v) == (p(u) || !p(v))
    requires forall k :: 0 <= k < |a| ==> p(a[k])
    requires forall k :: 0 <= k < |b| ==> !p(b[k])
    ensures Insert(x, a + b, le) == if p(x) then [x] + a + b else a + [x] + b
    decreases |a|
  {
    if a == [] {
      assert a + b == b;
      if b != [] {
        assert le(x, b[0]);
      }
    } else if !p(x) {
      assert (a + b)[0] == a[0] && (a + b)[1..] == a[1..] + b;
      assert !le(x, a[0]);
      InsertFlagged(x, a[1..], b, le, p);
      assert [a[0]] + (a[1..] + [x] + b) == a + [x] + b;
    }
  }

  lemma FilterHead<T>(s: seq<T>, p: T -> bool)
    requires s != []
    ensures Filter(s, p) == if p(s[0]) then [s[0]] + Filter(s[1..], p) else Filter(s[1..], p)
    ensures FilterOut(s, p) == if p(s[0]) then FilterOut(s[1..], p) else [s[0]] + FilterOut(s[1..], p)
  {
  }

  lemma SortByHead<T>(s: seq<T>, le: (T, T) -> bool)
    requires s != []
    ensures SortBy(s, le) == Insert(s[0], SortBy(s[1..], le), le)
  {
  }

  /** A flagged element in front of a list already sorted into its stable partition goes first. */
  lemma FlagFirstStepIn<T>(s: seq<T>, le: (T, T) -> bool, p: T -> bool)
    requires s != [] && p(s[0])
    requires forall u, v :: le(u, v) == (p(u) || !p(v))
    requires SortBy(s[1..], le) == Filter(s[1..], p) + FilterOut(s[1..], p)
    ensures SortBy(s, le) == Filter(s, p) + FilterOut(s, p)
  {
    var x, a, b := s[0], Filter(s[1..], p), FilterOut(s[1..], p);
    SortByHead(s, le);
    FilterHead(s, p);
    InsertFlagged(x, a, b, le, p);
  }

  /** An unflagged element in front of it goes right after the flagged ones. */
  lemma FlagFirstStepOut<T>(s: seq<T>, le: (T, T) -> bool, p: T -> bool)
    requires s != [] && !p(s[0])
    requires forall u, v :: le(u, v) == (p(u) || !p(v))
    requires SortBy(s[1..], le) == Filter(s[1..], p) + FilterOut(s[1..], p)
    ensures SortBy(s, le) == Filter(s, p) + FilterOut(s, p)
  {
    var x, a, b := s[0], Filter(s[1..], p), FilterOut(s[1..], p);
    SortByHead(s, le);
    FilterHead(s, p);
    InsertFlagged(x, a, b, le, p);
    assert SortBy(s, le) == a + [x] + b;
    assert Filter(s, p) == a && FilterOut(s, p) == [x] + b;
    ConcatAssoc(a, [x], b);
  }

  lemma ConcatAssoc<T>(a: seq<T>, b: seq<T>, c: seq<T>)
    ensures a + b + c == a + (b + c)
  {
  }

  /**
   * Sorting with a comparator that only puts flagged elements first is a
   * stable partition: the flagged elements in their original order, then
   * the others in theirs.
   */
  lemma {:induction false} SortByFlagFirst<T>(s: seq<T>, le: (T, T) -> bool, p: T -> bool)
    requires forall u, v :: le(u, v) == (p(u) || !p(v))
    ensures SortBy(s, le) == Filter(s, p) + FilterOut(s, p)
    decreases |s|
  {
    if s != [] {
      SortByFlagFirst(s[1..], le, p);
      if p(s[0]) {
        FlagFirstStepIn(s, le, p);
      } else {
        FlagFirstStepOut(s, le, p);
      }
    }
  }
}
