/** Decimal numerals, the order on strings, and trimming. */
module Text {
  import opened Mesh

  /// Decimal numerals

  function Digit(n: nat): char
    requires n < 10
  {
    '0' + n as char
  }

  predicate IsDigit(c: char) {
    '0' <= c <= '9'
  }

  function Decimal(n: nat): (s: string)
    ensures s != [] && forall i :: 0 <= i < |s| ==> IsDigit(s[i])
    ensures |s| > 1 ==> s[0] != '0'
  {
    if n < 10 then [Digit(n)] else Decimal(n / 10) + [Digit(n % 10)]
  }

  // A numeral ends with the digit for the ones, after the numeral of the tens if there are any.
  lemma {:induction false} DecimalDigits(n: nat)
    ensures Decimal(n) == (if n < 10 then "" else Decimal(n / 10)) + ["0123456789"[n % 10]]
  {
    assert "" + [Digit(n % 10)] == [Digit(n % 10)];
  }

  function DigitsValue(s: string): nat
    requires forall i :: 0 <= i < |s| ==> IsDigit(s[i])
  {
    if s == [] then 0
    else
      var last := s[|s| - 1];
      assert IsDigit(last);
      DigitsValue(s[..|s| - 1]) * 10 + (last as int - '0' as int)
  }

  lemma {:induction false} DecimalValue(n: nat)
    ensures DigitsValue(Decimal(n)) == n
  {
    if n < 10 {
      assert [Digit(n)][..0] == [];
    } else {
      DecimalValue(n / 10);
      var s := Decimal(n);
      assert s[..|s| - 1] == Decimal(n / 10);
    }
  }

  // An unsigned numeral below `limit`, or nothing.
  function ParseUnsigned(s: string, limit: nat): Option<nat> {
    if s != [] && (forall i :: 0 <= i < |s| ==> IsDigit(s[i])) && DigitsValue(s) < limit
    then Some(DigitsValue(s)) else None
  }

  function Numeral(n: int): string {
    if n < 0 then "-" + Decimal(-n) else Decimal(n)
  }

  function ParseInt(s: string): Option<int> {
    var digits := if s != [] && s[0] == '-' then s[1..] else s;
    if digits != [] && forall i :: 0 <= i < |digits| ==> IsDigit(digits[i])
    then
      var v: int := DigitsValue(digits);
      Some(if s[0] == '-' then -v else v)
    else None
  }

  lemma {:induction false} DecimalReadsBack(n: nat)
    ensures ParseInt(Decimal(n)) == Some(n)
  {
    DecimalValue(n);
    assert Decimal(n)[0] != '-' by {
      assert IsDigit(Decimal(n)[0]);
    }
  }

  lemma {:induction false} NegativeReadsBack(n: int)
    requires n < 0
    ensures ParseInt("-" + Decimal(-n)) == Some(n)
  {
    var s := "-" + Decimal(-n);
    DecimalValue(-n);
    assert s[0] == '-' && s[1..] == Decimal(-n);
  }

  lemma {:induction false} NumeralReadsBack(n: int)
    ensures ParseInt(Numeral(n)) == Some(n)
  {
    if n < 0 {
      NegativeReadsBack(n);
    } else {
      DecimalReadsBack(n);
    }
  }

  /// The order on strings

  predicate Leq(a: string, b: string) {
    if a == [] then true
    else if b == [] then false
    else if a[0] != b[0] then a[0] < b[0]
    else Leq(a[1..], b[1..])
  }

  lemma {:induction false} LeqTotal(a: string, b: string)
    ensures Leq(a, b) || Leq(b, a)
    ensures Leq(a, b) && Leq(b, a) ==> a == b
  {
    if a != [] && b != [] && a[0] == b[0] {
      LeqTotal(a[1..], b[1..]);
      assert a == [a[0]] + a[1..] && b == [b[0]] + b[1..];
    }
  }

  lemma {:induction false} LeqTransitive(a: string, b: string, c: string)
    requires Leq(a, b) && Leq(b, c)
    ensures Leq(a, c)
  {
    if a != [] && a[0] == b[0] == c[0] {
      LeqTransitive(a[1..], b[1..], c[1..]);
    }
  }

  // The order of a dictionary by code points: a prefix comes first, or else the smaller character
  // at the first difference.
  lemma {:induction false} LeqIsLexicographic(a: string, b: string)
    ensures Leq(a, b) <==> a <= b || exists k :: 0 <= k < |a| && k < |b| && a[..k] == b[..k] && a[k] < b[k]
  {
    if a == [] || b == [] {
    } else if a[0] != b[0] {
      assert a[..0] == b[..0];
    } else {
      LeqIsLexicographic(a[1..], b[1..]);
      assert a == [a[0]] + a[1..] && b == [b[0]] + b[1..];
      forall k | 0 <= k < |a[1..]| && k < |b[1..]|
        ensures a[1..][..k] == b[1..][..k] <==> a[..k + 1] == b[..k + 1]
        ensures a[1..][k] == a[k + 1] && b[1..][k] == b[k + 1]
      {
        assert a[..k + 1] == [a[0]] + a[1..][..k] && b[..k + 1] == [b[0]] + b[1..][..k];
      }
    }
  }

  predicate IsLeast(k: string, ks: set<string>) {
    k in ks && forall j :: j in ks ==> Leq(k, j)
  }

  lemma {:induction false} LeastExists(ks: set<string>)
    requires ks != {}
    ensures exists k :: IsLeast(k, ks)
    decreases ks
  {
    var j :| j in ks;
    LeqTotal(j, j);
    if ks == {j} {
      assert IsLeast(j, ks);
    } else {
      LeastExists(ks - {j});
      var k :| IsLeast(k, ks - {j});
      LeqTotal(j, k);
      if Leq(k, j) {
        assert IsLeast(k, ks);
      } else {
        forall i | i in ks
          ensures Leq(j, i)
        {
          if i != j {
            LeqTransitive(j, k, i);
          }
        }
        assert IsLeast(j, ks);
      }
    }
  }

  function Least(ks: set<string>): (k: string)
    requires ks != {}
    ensures IsLeast(k, ks)
  {
    LeastExists(ks);
    assert forall a, b :: IsLeast(a, ks) && IsLeast(b, ks) ==> a == b by {
      forall a, b | IsLeast(a, ks) && IsLeast(b, ks)
        ensures a == b
      {
        LeqTotal(a, b);
      }
    }
    var k :| IsLeast(k, ks);
    k
  }

  // The elements of a set in ascending order.
  function SortedKeys(ks: set<string>): (s: seq<string>)
    ensures forall k :: k in s <==> k in ks
    ensures forall i, j :: 0 <= i < j < |s| ==> Leq(s[i], s[j]) && s[i] != s[j]
    decreases ks
  {
    if ks == {} then []
    else
      var k := Least(ks);
      [k] + SortedKeys(ks - {k})
  }

  /// Lines

  // The first line of a text with its newline, and the rest; none when there is no newline.
  function SplitLine(s: string): Option<(string, string)> {
    if s == [] then None
    else if s[0] == '\n' then Some((s[..1], s[1..]))
    else
      var r := SplitLine(s[1..]);
      if r.None? then None else Some(([s[0]] + r.value.0, r.value.1))
  }

  lemma {:induction false} SplitFramed(line: string, rest: string)
    requires '\n' !in line
    ensures SplitLine(line + "\n" + rest) == Some((line + "\n", rest))
  {
    var s := line + "\n" + rest;
    if line == [] {
      assert s[..1] == "\n" && s[1..] == rest;
    } else {
      assert s[1..] == line[1..] + "\n" + rest;
      SplitFramed(line[1..], rest);
      assert [line[0]] + (line[1..] + "\n") == line + "\n";
    }
  }

  lemma {:induction false} SplitNeedsNewline(s: string)
    requires '\n' !in s
    ensures SplitLine(s) == None
  {
    if s == [] {
    } else {
      SplitNeedsNewline(s[1..]);
    }
  }

  /// Trimming

  predicate IsSpace(c: char) {
    c in "\t\n\r \U{0B}\U{0C}\U{85}\U{A0}\U{1680}\U{2028}\U{2029}\U{202F}\U{205F}\U{3000}" || '\U{2000}' <= c <= '\U{200A}'
  }

  function TrimLeft(s: string): string {
    if s != [] && IsSpace(s[0]) then TrimLeft(s[1..]) else s
  }

  function TrimRight(s: string): string {
    if s != [] && IsSpace(s[|s| - 1]) then TrimRight(s[..|s| - 1]) else s
  }

  function TrimSpace(s: string): string {
    TrimRight(TrimLeft(s))
  }

  // Text that neither begins nor ends with a space survives trimming, with its line end gone.
  lemma {:induction false} TrimKeeps(s: string)
    requires s != [] && !IsSpace(s[0]) && !IsSpace(s[|s| - 1])
    ensures TrimSpace(s) == s
    ensures TrimSpace(s + "\n") == s
  {
    var t := s + "\n";
    assert TrimLeft(t) == t;
    assert t[..|t| - 1] == s;
    assert TrimRight(t) == TrimRight(s);
  }

  lemma {:induction false} TrimLeftBlank(s: string)
    ensures TrimLeft(s) == "" <==> forall i :: 0 <= i < |s| ==> IsSpace(s[i])
    ensures TrimLeft(s) != "" ==> !IsSpace(TrimLeft(s)[0])
  {
    if s == [] {
    } else {
      TrimLeftBlank(s[1..]);
      assert forall i :: 0 < i < |s| ==> s[i] == s[1..][i - 1];
      assert (forall i :: 0 <= i < |s| ==> IsSpace(s[i])) <==> IsSpace(s[0]) && forall i :: 0 <= i < |s[1..]| ==> IsSpace(s[1..][i]);
    }
  }

  lemma {:induction false} TrimRightKeepsHead(s: string)
    requires s != [] && !IsSpace(s[0])
    ensures TrimRight(s) != ""
  {
    if IsSpace(s[|s| - 1]) {
      TrimRightKeepsHead(s[..|s| - 1]);
    }
  }

  // Nothing is left of a text exactly when it is all spaces.
  lemma {:induction false} BlankIffSpaces(s: string)
    ensures TrimSpace(s) == "" <==> forall i :: 0 <= i < |s| ==> IsSpace(s[i])
  {
    TrimLeftBlank(s);
    if TrimLeft(s) != "" {
      TrimRightKeepsHead(TrimLeft(s));
    }
  }

  lemma {:induction false} TrimDropsBlank(s: string)
    requires s != [] && !IsSpace(s[0]) && !IsSpace(s[|s| - 1])
    ensures TrimSpace(" " + s) == s
  {
    assert (" " + s)[1..] == s;
    assert TrimLeft(" " + s) == TrimLeft(s) == s;
  }

  /// Sizes

  // The bytes of a character and of a string in UTF-8.
  function CharBytes(c: char): nat {
    if c < '\U{80}' then 1 else if c < '\U{800}' then 2 else if c < '\U{10000}' then 3 else 4
  }

  function Bytes(s: string): nat {
    if s == [] then 0 else CharBytes(s[0]) + Bytes(s[1..])
  }

  lemma {:induction false} BytesAppend(a: string, b: string)
    ensures Bytes(a + b) == Bytes(a) + Bytes(b)
  {
    if a == [] {
      assert a + b == b;
    } else {
      assert (a + b)[1..] == a[1..] + b;
      BytesAppend(a[1..], b);
    }
  }
}
