/** SQL text as the controllers assemble it: `$k` placeholders, comma lists,
    `join`, and an independent reader that extracts, in order, the numbers of
    the placeholders a piece of SQL text contains. */
module SqlText {
  import opened Common

  /** `$${k}` */
  function Placeholder(k: nat): string { "$" + NatToString(k) }

  /** `items.map((_, i) => `$${start + i}`)` for a list of n items */
  function Placeholders(start: nat, n: nat): (ps: seq<string>)
    ensures |ps| == n
  {
    seq(n, i requires 0 <= i < n => Placeholder(start + i))
  }

  /** The numbers start, start+1, ..., start+n-1. */
  function Range(start: nat, n: nat): (r: seq<nat>)
    ensures |r| == n && forall i :: 0 <= i < n ==> r[i] == start + i
  {
    seq(n, i requires 0 <= i < n => start + i)
  }

  /** `parts.join(sep)` */
  function Join(sep: string, parts: seq<string>): string
  {
    if |parts| == 0 then ""
    else if |parts| == 1 then parts[0]
    else parts[0] + sep + Join(sep, parts[1..])
  }

  function Flatten(xss: seq<seq<nat>>): seq<nat>
  {
    if xss == [] then [] else xss[0] + Flatten(xss[1..])
  }

  /** Length of the run of digits that starts s. */
  function DigitRun(s: string): (k: nat)
    ensures k <= |s|
    ensures forall i :: 0 <= i < k ==> IsDigit(s[i])
    ensures k < |s| ==> !IsDigit(s[k])
  {
    if s != [] && IsDigit(s[0]) then 1 + DigitRun(s[1..]) else 0
  }

  /** The placeholder numbers in SQL text, left to right: every `$` followed by
      at least one digit, read with its whole run of digits. */
  function Scan(s: string): seq<nat>
    decreases |s|
  {
    if |s| == 0 then []
    else if s[0] == '$' && |s| >= 2 && IsDigit(s[1]) then
      var k := DigitRun(s[1..]);
      [DigitsValue(s[1..1 + k])] + Scan(s[1 + k..])
    else Scan(s[1..])
  }

  /** A string may be glued in front of another without merging two tokens. */
  predicate StartsClean(s: string) { s == [] || !IsDigit(s[0]) }

  lemma {:induction false} ScanNoDollar(s: string)
    requires '$' !in s
    ensures Scan(s) == []
  {
    if s != [] {
      assert '$' !in s[1..];
      ScanNoDollar(s[1..]);
    }
  }

  lemma {:induction false} DigitRunAppend(x: string, b: string)
    requires StartsClean(b)
    ensures DigitRun(x + b) == DigitRun(x)
  {
    if x != [] {
      assert (x + b)[1..] == x[1..] + b;
      DigitRunAppend(x[1..], b);
    }
  }

  /** Gluing text that does not begin with a digit behind a placeholder leaves
      the placeholder's digits as they were. */
  lemma TokenAppend(a: string, b: string)
    requires StartsClean(b) && |a| >= 2 && a[0] == '$' && IsDigit(a[1])
    ensures (a + b)[0] == '$' && IsDigit((a + b)[1])
    ensures DigitRun((a + b)[1..]) == DigitRun(a[1..])
    ensures (a + b)[1..1 + DigitRun(a[1..])] == a[1..1 + DigitRun(a[1..])]
    ensures (a + b)[1 + DigitRun(a[1..])..] == a[1 + DigitRun(a[1..])..] + b
  {
    assert (a + b)[1..] == a[1..] + b;
    DigitRunAppend(a[1..], b);
  }

  /** Gluing text that does not begin with a digit behind text that does not
      start with a placeholder does not make one. */
  lemma OtherAppend(a: string, b: string)
    requires a != [] && !(a[0] == '$' && |a| >= 2 && IsDigit(a[1]))
    requires StartsClean(b)
    ensures !((a + b)[0] == '$' && |a + b| >= 2 && IsDigit((a + b)[1]))
    ensures (a + b)[1..] == a[1..] + b
  {
    if |a| == 1 {
      assert (a + b)[1..] == b;
    }
  }

  /** Reading text that starts with a placeholder: its number, then the rest. */
  lemma ScanToken(s: string)
    requires |s| >= 2 && s[0] == '$' && IsDigit(s[1])
    ensures Scan(s) == [DigitsValue(s[1..1 + DigitRun(s[1..])])] + Scan(s[1 + DigitRun(s[1..])..])
  {
  }

  /** Reading non-empty text that does not start with a placeholder skips one character. */
  lemma ScanOther(s: string)
    requires s != [] && !(s[0] == '$' && |s| >= 2 && IsDigit(s[1]))
    ensures Scan(s) == Scan(s[1..])
  {
  }

  /** Reading glued text is reading each part, when the second part does not
      begin with a digit. */
  lemma {:induction false} ScanAppend(a: string, b: string)
    requires StartsClean(b)
    ensures Scan(a + b) == Scan(a) + Scan(b)
    decreases |a|
  {
    if a == [] {
      assert a + b == b;
    } else if a[0] == '$' && |a| >= 2 && IsDigit(a[1]) {
      var k := DigitRun(a[1..]);
      TokenAppend(a, b);
      ScanToken(a);
      ScanToken(a + b);
      ScanAppend(a[1 + k..], b);
      AppendAssoc([DigitsValue(a[1..1 + k])], Scan(a[1 + k..]), Scan(b));
    } else {
      OtherAppend(a, b);
      ScanOther(a);
      ScanOther(a + b);
      ScanAppend(a[1..], b);
    }
  }

  lemma ScanPlaceholder(k: nat)
    ensures Scan(Placeholder(k)) == [k]
  {
    NatToStringReadsBack(k);
    var d := NatToString(k);
    var s := Placeholder(k);
    assert s[1..] == d;
    assert IsDigit(s[1]);
    assert DigitRun(d) == |d|;
    assert s[1..1 + |d|] == d;
    assert s[1 + |d|..] == [];
  }

  /** Reading `x`, a `$`-free separator and then `rest` is reading `x` and then `rest`. */
  lemma ScanGlue(x: string, sep: string, rest: string)
    requires '$' !in sep && sep != [] && !IsDigit(sep[0])
    requires StartsClean(rest)
    ensures Scan(x + (sep + rest)) == Scan(x) + Scan(rest)
    ensures StartsClean(sep + rest)
  {
    ScanAppend(sep, rest);
    ScanNoDollar(sep);
    ScanAppend(x, sep + rest);
  }

  /** A non-empty list of placeholders, joined, starts with `$`. */
  lemma JoinPlaceholdersStart(sep: string, start: nat, n: nat)
    ensures n > 0 ==> |Join(sep, Placeholders(start, n))| > 0 && Join(sep, Placeholders(start, n))[0] == '$'
  {
    if n > 0 {
      var ps := Placeholders(start, n);
      assert ps[0] == Placeholder(start);
      if n > 1 {
        assert Join(sep, ps) == ps[0] + (sep + Join(sep, ps[1..]));
      }
    }
  }

  /** Joining texts that do not begin with a digit, with a separator that does
      not either, gives text that does not begin with a digit. */
  lemma JoinStartsClean(sep: string, parts: seq<string>)
    requires sep != [] && !IsDigit(sep[0])
    requires forall i :: 0 <= i < |parts| ==> StartsClean(parts[i])
    ensures StartsClean(Join(sep, parts))
  {
    if |parts| > 1 {
      var j := parts[0] + (sep + Join(sep, parts[1..]));
      assert Join(sep, parts) == j;
      assert StartsClean(parts[0]);
      if parts[0] == [] {
        assert j == sep + Join(sep, parts[1..]);
      } else {
        assert j[0] == parts[0][0];
      }
    } else if |parts| == 1 {
      assert StartsClean(parts[0]);
    }
  }

  /** A comma list of the placeholders $start..$start+n-1 reads back as exactly
      those numbers, in order. */
  lemma {:induction false} ScanPlaceholderList(sep: string, start: nat, n: nat)
    requires '$' !in sep && sep != [] && !IsDigit(sep[0])
    ensures Scan(Join(sep, Placeholders(start, n))) == Range(start, n)
    ensures n > 0 ==> |Join(sep, Placeholders(start, n))| > 0 && Join(sep, Placeholders(start, n))[0] == '$'
    decreases n
  {
    JoinPlaceholdersStart(sep, start, n);
    if n == 1 {
      ScanPlaceholder(start);
      assert Placeholders(start, n) == [Placeholder(start)];
    } else if n > 1 {
      var head := Placeholder(start);
      var tail := Placeholders(start + 1, n - 1);
      var rest := Join(sep, tail);
      PlaceholdersCons(start, n);
      JoinCons(sep, head, tail);
      ScanPlaceholderList(sep, start + 1, n - 1);
      JoinPlaceholdersStart(sep, start + 1, n - 1);
      ScanGlue(head, sep, rest);
      ScanPlaceholder(start);
      RangeCons(start, n);
    }
  }

  lemma PlaceholdersCons(start: nat, n: nat)
    requires n > 0
    ensures Placeholders(start, n) == [Placeholder(start)] + Placeholders(start + 1, n - 1)
  {
  }

  lemma RangeCons(start: nat, n: nat)
    requires n > 0
    ensures Range(start, n) == [start] + Range(start + 1, n - 1)
  {
  }

  lemma JoinCons(sep: string, head: string, tail: seq<string>)
    requires tail != []
    ensures Join(sep, [head] + tail) == head + (sep + Join(sep, tail))
  {
    assert ([head] + tail)[1..] == tail;
  }

  /** Joining condition texts with a separator free of `$` concatenates what
      each condition contains. */
  lemma {:induction false} ScanJoin(sep: string, parts: seq<string>)
    requires '$' !in sep && sep != [] && !IsDigit(sep[0])
    requires forall i :: 0 <= i < |parts| ==> StartsClean(parts[i])
    ensures Scan(Join(sep, parts)) == Flatten(seq(|parts|, i requires 0 <= i < |parts| => Scan(parts[i])))
    ensures StartsClean(Join(sep, parts))
    decreases |parts|
  {
    JoinStartsClean(sep, parts);
    var scans := seq(|parts|, i requires 0 <= i < |parts| => Scan(parts[i]));
    if |parts| == 0 {
    } else if |parts| == 1 {
      assert Flatten(scans[1..]) == [];
    } else {
      var rest := Join(sep, parts[1..]);
      ScanJoin(sep, parts[1..]);
      assert scans[1..] == seq(|parts[1..]|, i requires 0 <= i < |parts[1..]| => Scan(parts[1..][i]));
      ScanGlue(parts[0], sep, rest);
      assert Join(sep, parts) == parts[0] + (sep + rest);
    }
  }

  /** The text `<column> IN ($p,$p+1,...)` of one list filter. */
  function InList(column: string, start: nat, n: nat): string
  {
    column + " IN (" + Join(",", Placeholders(start, n)) + ")"
  }

  /** A list filter on a `$`-free column reads back as its own placeholders. */
  lemma ScanInList(column: string, start: nat, n: nat)
    requires '$' !in column
    ensures Scan(InList(column, start, n)) == Range(start, n)
  {
    var body := Join(",", Placeholders(start, n));
    ScanPlaceholderList(",", start, n);
    ScanNoDollar(column + " IN (");
    ScanNoDollar(")");
    ScanAppend(body, ")");
    ScanAppend(column + " IN (", body + ")");
    assert InList(column, start, n) == (column + " IN (") + (body + ")");
  }

  lemma FlattenAppend(xss: seq<seq<nat>>, ys: seq<nat>)
    ensures Flatten(xss + [ys]) == Flatten(xss) + ys
  {
    if xss != [] {
      assert (xss + [ys])[1..] == xss[1..] + [ys];
      FlattenAppend(xss[1..], ys);
    }
  }

  lemma RangeAppend(start: nat, n: nat, m: nat)
    ensures Range(start, n) + Range(start + n, m) == Range(start, n + m)
  {
  }

  /** `items.map((_, i) => `$${start + i}`)`, computed as the source does, item by item. */
  method PlaceholderTexts(start: nat, n: nat) returns (ps: seq<string>)
    ensures ps == Placeholders(start, n)
  {
    ps := [];
    var i := 0;
    while i < n
      invariant 0 <= i <= n
      invariant ps == Placeholders(start, i)
    {
      ps := ps + [Placeholder(start + i)];
      i := i + 1;
    }
  }
}
