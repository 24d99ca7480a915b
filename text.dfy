/** The string utilities: word capitalisation, `{{key}}` template
    substitution, the code and temporary-password generators, and the default
    text of the access e-mail. Case mapping is ASCII: other characters have no
    case. */
module Text {
  import opened Common

  function Lower(c: char): (d: char)
  {
    if 'A' <= c <= 'Z' then (c as int + 32) as char else c
  }

  function Upper(c: char): (d: char)
  {
    if 'a' <= c <= 'z' then (c as int - 32) as char else c
  }

  /** What the capitalisation relies on about case mapping: spaces are kept,
      nothing else becomes a space, both maps are idempotent, and upper-casing
      a lowered character is upper-casing it. */
  lemma CaseFacts(c: char)
    ensures (Lower(c) == ' ') == (c == ' ') && (Upper(c) == ' ') == (c == ' ')
    ensures Lower(Lower(c)) == Lower(c) && Upper(Upper(c)) == Upper(c)
    ensures Upper(Lower(c)) == Upper(c)
  {
  }

  function LowerAll(s: string): (r: string)
    ensures |r| == |s| && forall i :: 0 <= i < |s| ==> r[i] == Lower(s[i])
  {
    seq(|s|, i requires 0 <= i < |s| => Lower(s[i]))
  }

  // ---------------------------------------------------------------- split and join

  function FirstSpace(s: string): (i: nat)
    requires ' ' in s
    ensures i < |s| && s[i] == ' ' && ' ' !in s[..i]
    ensures forall m :: 0 <= m < i ==> s[m] != ' '
  {
    if s[0] == ' ' then 0 else
      assert ' ' in s[1..] by { var k :| 0 <= k < |s| && s[k] == ' '; assert s[1..][k - 1] == ' '; }
      var j := FirstSpace(s[1..]);
      assert s[..j + 1] == [s[0]] + s[1..][..j];
      j + 1
  }

  /** `s.split(' ')`: the pieces between spaces, empty ones included. */
  function Split(s: string): (ws: seq<string>)
    ensures |ws| >= 1
    decreases |s|
  {
    if ' ' !in s then [s] else
      var i := FirstSpace(s);
      [s[..i]] + Split(s[i + 1..])
  }

  /** `ws.join(' ')` */
  function Join(ws: seq<string>): string
    requires |ws| >= 1
  {
    if |ws| == 1 then ws[0] else ws[0] + " " + Join(ws[1..])
  }

  /** `palavra.charAt(0).toUpperCase() + palavra.slice(1)` */
  function CapWord(w: string): string
  {
    if w == [] then [] else [Upper(w[0])] + w[1..]
  }

  function CapWords(ws: seq<string>): (r: seq<string>)
    ensures |r| == |ws| && forall k :: 0 <= k < |ws| ==> r[k] == CapWord(ws[k])
  {
    seq(|ws|, k requires 0 <= k < |ws| => CapWord(ws[k]))
  }

  /** `capitalizarTexto`: null for an undefined or empty text. */
  function Capitalize(texto: Option<string>): Option<string>
  {
    if texto.None? || texto.value == [] then None
    else Some(Join(CapWords(Split(LowerAll(texto.value)))))
  }

  // ---------------------------------------------------------------- the reference

  /** Character by character: a space stays, a character at the start or after
      a space is upper-cased, every other one is lower-cased. */
  function CapitalizedAt(s: string, i: int): char
    requires 0 <= i < |s|
  {
    if s[i] == ' ' then ' ' else if i == 0 || s[i - 1] == ' ' then Upper(s[i]) else Lower(s[i])
  }

  /** The pipeline on an already lowered text upper-cases the first character of each word. */
  function StartsUpper(t: string): (r: string)
    ensures |r| == |t|
  {
    seq(|t|, i requires 0 <= i < |t| => if t[i] != ' ' && (i == 0 || t[i - 1] == ' ') then Upper(t[i]) else t[i])
  }

  lemma StartsUpperSplit(t: string, i: int)
    requires 0 <= i < |t| && t[i] == ' '
    ensures StartsUpper(t) == StartsUpper(t[..i]) + " " + StartsUpper(t[i + 1..])
  {
    var lhs, rhs := StartsUpper(t), StartsUpper(t[..i]) + " " + StartsUpper(t[i + 1..]);
    forall k | 0 <= k < |t|
      ensures lhs[k] == rhs[k]
    {
      if k < i {
      } else if k == i {
      } else {
        assert t[i + 1..][k - i - 1] == t[k];
        if k - i - 1 > 0 {
          assert t[i + 1..][k - i - 2] == t[k - 1];
        }
      }
    }
  }

  lemma {:induction false} PipelineIsStartsUpper(t: string)
    ensures Join(CapWords(Split(t))) == StartsUpper(t)
    decreases |t|
  {
    if ' ' !in t {
      if t != [] {
        var lhs, rhs := CapWord(t), StartsUpper(t);
        forall k | 0 <= k < |t| ensures lhs[k] == rhs[k] {
          if k > 0 {
            assert t[k - 1] in t;
          }
        }
      }
    } else {
      var i := FirstSpace(t);
      var rest := Split(t[i + 1..]);
      assert Split(t) == [t[..i]] + rest;
      PipelineIsStartsUpper(t[i + 1..]);
      assert CapWords(Split(t)) == [CapWord(t[..i])] + CapWords(rest);
      assert CapWords(Split(t))[1..] == CapWords(rest);
      PipelineIsStartsUpper(t[..i]);
      assert Split(t[..i]) == [t[..i]];
      StartsUpperSplit(t, i);
    }
  }

  /** The capitalisation agrees with the character-by-character reference. */
  lemma CapitalizeAt(s: string)
    requires s != []
    ensures |Capitalize(Some(s)).value| == |s|
    ensures forall i :: 0 <= i < |s| ==> Capitalize(Some(s)).value[i] == CapitalizedAt(s, i)
  {
    var t := LowerAll(s);
    PipelineIsStartsUpper(t);
    forall i | 0 <= i < |s|
      ensures StartsUpper(t)[i] == CapitalizedAt(s, i)
    {
      CaseFacts(s[i]);
      if i > 0 {
        CaseFacts(s[i - 1]);
      }
    }
  }

  /** An undefined or empty text gives null, anything else a text of the same length. */
  lemma CapitalizeNull(texto: Option<string>)
    ensures Capitalize(texto).None? <==> texto.None? || texto.value == []
    ensures Capitalize(texto).Some? ==> |Capitalize(texto).value| == |texto.value|
  {
    if texto.Some? && texto.value != [] {
      CapitalizeAt(texto.value);
    }
  }

  /** Capitalising twice gives the same text as once. */
  lemma CapitalizeIdempotent(s: string)
    requires s != []
    ensures Capitalize(Capitalize(Some(s))) == Capitalize(Some(s))
  {
    var r := Capitalize(Some(s)).value;
    CapitalizeAt(s);
    CapitalizeAt(r);
    var rr := Capitalize(Some(r)).value;
    forall i | 0 <= i < |s|
      ensures rr[i] == r[i]
    {
      CaseFacts(s[i]);
      CaseFacts(Upper(s[i]));
      CaseFacts(Lower(s[i]));
      if i > 0 {
        CaseFacts(s[i - 1]);
        assert r[i - 1] == CapitalizedAt(s, i - 1);
      }
    }
    assert rr == r;
  }

  // ---------------------------------------------------------------- word structure

  /** Two texts with spaces in the same places split into words of the same lengths. */
  lemma {:induction false} SplitShape(a: string, b: string)
    requires |a| == |b| && forall i :: 0 <= i < |a| ==> (a[i] == ' ' <==> b[i] == ' ')
    ensures |Split(a)| == |Split(b)|
    ensures forall k :: 0 <= k < |Split(a)| ==> |Split(a)[k]| == |Split(b)[k]|
    decreases |a|
  {
    SameSpaces(a, b);
    if ' ' in a {
      var i := FirstSpace(a);
      assert FirstSpace(b) == i by { FirstSpaceSame(a, b); }
      var a', b' := a[i + 1..], b[i + 1..];
      SplitShape(a', b');
      assert Split(a) == [a[..i]] + Split(a');
      assert Split(b) == [b[..i]] + Split(b');
    }
  }

  lemma SameSpaces(a: string, b: string)
    requires |a| == |b| && forall i :: 0 <= i < |a| ==> (a[i] == ' ' <==> b[i] == ' ')
    ensures ' ' in a <==> ' ' in b
  {
    assert ' ' in a ==> exists k :: 0 <= k < |a| && a[k] == ' ';
    assert ' ' in b ==> exists k :: 0 <= k < |b| && b[k] == ' ';
  }

  lemma FirstSpaceSame(a: string, b: string)
    requires |a| == |b| && forall i :: 0 <= i < |a| ==> (a[i] == ' ' <==> b[i] == ' ')
    requires ' ' in a && ' ' in b
    ensures FirstSpace(a) == FirstSpace(b)
  {
  }

  /** The capitalised text has as many words as the text and every word keeps
      its length, so empty words (from adjacent spaces) stay empty. */
  lemma CapitalizeKeepsWords(s: string)
    requires s != []
    ensures |Capitalize(Some(s)).value| == |s|
    ensures |Split(Capitalize(Some(s)).value)| == |Split(s)|
    ensures forall k :: 0 <= k < |Split(s)| ==> |Split(Capitalize(Some(s)).value)[k]| == |Split(s)[k]|
    ensures forall i :: 0 <= i < |s| ==> (Capitalize(Some(s)).value[i] == ' ' <==> s[i] == ' ')
  {
    var r := Capitalize(Some(s)).value;
    CapitalizeAt(s);
    forall i | 0 <= i < |s|
      ensures r[i] == ' ' <==> s[i] == ' '
    {
      CaseFacts(s[i]);
    }
    SplitShape(r, s);
  }

  // ---------------------------------------------------------------- templates

  predicate IsWordChar(c: char)
  {
    ('a' <= c <= 'z') || ('A' <= c <= 'Z') || ('0' <= c <= '9') || c == '_'
  }

  /** The length of the run of `\w` characters at the start of `s`. */
  function WordRun(s: string): (n: nat)
    ensures n <= |s| && forall i :: 0 <= i < n ==> IsWordChar(s[i])
    ensures n < |s| ==> !IsWordChar(s[n])
  {
    if s == [] || !IsWordChar(s[0]) then 0 else 1 + WordRun(s[1..])
  }

  /** The key of a `{{\w+}}` match at the start of `s`, if one starts there. */
  function MatchAt(s: string): (key: Option<string>)
    ensures key.Some? ==> |key.value| >= 1 && |s| >= |key.value| + 4 &&
                          s[..|key.value| + 4] == "{{" + key.value + "}}" &&
                          forall i :: 0 <= i < |key.value| ==> IsWordChar(key.value[i])
  {
    if |s| >= 2 && s[0] == '{' && s[1] == '{' then
      var n := WordRun(s[2..]);
      if n >= 1 && |s| >= n + 4 && s[n + 2] == '}' && s[n + 3] == '}' then
        assert s[..n + 4] == "{{" + s[2..n + 2] + "}}";
        Some(s[2..n + 2])
      else None
    else None
  }

  /** `data[key] || text`: a missing or empty value falls back. */
  function Substitute(data: map<string, string>, key: string, fallback: string): (v: string)
    ensures key in data && data[key] != [] ==> v == data[key]
    ensures !(key in data && data[key] != []) ==> v == fallback
  {
    if key in data && data[key] != [] then data[key] else fallback
  }

  /** `template.replace(/{{(\w+)}}/g, ...)`: scanning left to right, each match
      is replaced and scanning resumes after it. */
  function Render(t: string, data: map<string, string>, fallback: string): string
    decreases |t|
  {
    if t == [] then []
    else match MatchAt(t)
      case Some(key) => Substitute(data, key, fallback) + Render(t[|key| + 4..], data, fallback)
      case None => [t[0]] + Render(t[1..], data, fallback)
  }

  /** A text in which no `{{\w+}}` match starts anywhere comes back unchanged. */
  lemma {:induction false} RenderWithoutPlaceholders(t: string, data: map<string, string>, fallback: string)
    requires forall i :: 0 <= i < |t| ==> MatchAt(t[i..]).None?
    ensures Render(t, data, fallback) == t
    decreases |t|
  {
    if t != [] {
      assert t[0..] == t;
      forall i | 0 <= i < |t| - 1 ensures MatchAt(t[1..][i..]).None? {
        assert t[1..][i..] == t[i + 1..];
      }
      RenderWithoutPlaceholders(t[1..], data, fallback);
    }
  }

  /** A placeholder is replaced by its value, or the fallback, and the text
      after it is rendered on its own: the substituted value is not scanned again. */
  lemma RenderPlaceholder(key: string, rest: string, data: map<string, string>, fallback: string)
    requires |key| >= 1 && forall i :: 0 <= i < |key| ==> IsWordChar(key[i])
    ensures Render("{{" + key + "}}" + rest, data, fallback) == Substitute(data, key, fallback) + Render(rest, data, fallback)
  {
    var t := "{{" + key + "}}" + rest;
    assert t[2..][..|key|] == key;
    assert WordRun(t[2..]) >= |key| by { WordRunAtLeast(t[2..], |key|); }
    assert WordRun(t[2..]) == |key| by { assert t[2..][|key|] == '}'; WordRunAtMost(t[2..], |key|); }
    assert t[2..|key| + 2] == key;
    assert t[|key| + 4..] == rest;
  }

  lemma {:induction false} WordRunAtLeast(s: string, n: nat)
    requires n <= |s| && forall i :: 0 <= i < n ==> IsWordChar(s[i])
    ensures WordRun(s) >= n
  {
    if n > 0 {
      WordRunAtLeast(s[1..], n - 1);
    }
  }

  lemma WordRunAtMost(s: string, n: nat)
    requires n < |s| && !IsWordChar(s[n])
    ensures WordRun(s) <= n
  {
  }

  /** A value is emitted as it is, even one that itself looks like a placeholder. */
  lemma NoRescan(key: string, data: map<string, string>, fallback: string)
    requires |key| >= 1 && forall i :: 0 <= i < |key| ==> IsWordChar(key[i])
    requires key in data && data[key] != []
    ensures Render("{{" + key + "}}", data, fallback) == data[key]
  {
    RenderPlaceholder(key, "", data, fallback);
    assert "{{" + key + "}}" + "" == "{{" + key + "}}";
  }

  // ---------------------------------------------------------------- generators

  const Digits: string := "0123456789"
  const PasswordCharset: string := "abcdefghijklmnopqrstuvwxyzABCDEFGHIJKLMNOPQRSTUVWXYZ0123456789!?"
  const DefaultCodeLength: nat := 6
  const DefaultPasswordLength: nat := 8

  /** The characters at the randomly chosen indices: `Math.floor(Math.random()
      * charset.length)` is some index below the length. */
  function Draw(charset: string, picks: seq<nat>): (r: string)
    requires forall i :: 0 <= i < |picks| ==> picks[i] < |charset|
    ensures |r| == |picks| && forall i :: 0 <= i < |picks| ==> r[i] == charset[picks[i]]
  {
    seq(|picks|, i requires 0 <= i < |picks| => charset[picks[i]])
  }

  /** `generateCode(length)`: one pick per position, each a decimal digit. */
  function GenerateCode(length: nat, picks: seq<nat>): (code: string)
    requires |picks| == length && forall i :: 0 <= i < |picks| ==> picks[i] < |Digits|
    ensures |code| == length && forall i :: 0 <= i < |code| ==> '0' <= code[i] <= '9'
  {
    Draw(Digits, picks)
  }

  /** `generateTempPassword(length)`: one pick per position, each from the charset. */
  function GenerateTempPassword(length: nat, picks: seq<nat>): (p: string)
    requires |picks| == length && forall i :: 0 <= i < |picks| ==> picks[i] < |PasswordCharset|
    ensures |p| == length && forall i :: 0 <= i < |p| ==> p[i] in PasswordCharset
  {
    Draw(PasswordCharset, picks)
  }

  /** `generateCode()` as every caller invokes it: six decimal digits. */
  function DefaultCode(picks: seq<nat>): (code: string)
    requires |picks| == DefaultCodeLength && forall i :: 0 <= i < |picks| ==> picks[i] < |Digits|
    ensures |code| == 6 && forall i :: 0 <= i < 6 ==> '0' <= code[i] <= '9'
  {
    GenerateCode(DefaultCodeLength, picks)
  }

  /** `generateTempPassword()` as every caller invokes it: eight characters of the charset. */
  function DefaultTempPassword(picks: seq<nat>): (p: string)
    requires |picks| == DefaultPasswordLength && forall i :: 0 <= i < |picks| ==> picks[i] < |PasswordCharset|
    ensures |p| == 8 && forall i :: 0 <= i < 8 ==> p[i] in PasswordCharset
  {
    GenerateTempPassword(DefaultPasswordLength, picks)
  }

  /** The charset has 64 characters. */
  lemma PasswordCharsetSize()
    ensures |PasswordCharset| == 64
  {
  }

  function IndexIn(charset: string, c: char): (i: nat)
    requires c in charset
    ensures i < |charset| && charset[i] == c
  {
    if charset[0] == c then 0 else 1 + IndexIn(charset[1..], c)
  }

  /** Every text over the charset is one the generator can produce. */
  lemma DrawReaches(charset: string, w: string)
    requires forall i :: 0 <= i < |w| ==> w[i] in charset
    ensures var picks := seq(|w|, i requires 0 <= i < |w| => IndexIn(charset, w[i]));
            (forall i :: 0 <= i < |picks| ==> picks[i] < |charset|) && Draw(charset, picks) == w
  {
  }

  // ---------------------------------------------------------------- the access e-mail

  const GreetingEnd: string := "! Aqui está sua senha de acesso temporária. Não compartilhe com ninguém, ok?"

  /** `sendEmails`: without a (truthy) text the message greets `name`. */
  function MailText(name: string, text: Option<string>): (r: string)
    ensures text.Some? && text.value != [] ==> r == text.value
    ensures text.None? || text.value == [] ==>
      |r| == 5 + |name| + |GreetingEnd| && r[..5] == "Hey, " && r[5..5 + |name|] == name && r[5 + |name|..] == GreetingEnd
  {
    if text.Some? && text.value != [] then text.value else "Hey, " + name + GreetingEnd
  }
}
