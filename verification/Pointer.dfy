/** JSON Pointers: the escaping the control service applies to object keys, and
    decoding and evaluation as in sections 3 and 4 of RFC 6901. */
module Pointer {
  import opened Wrappers
  import opened Json

  // Escaping and unescaping, as whole-string replacements applied in order.

  function Replace(s: string, c: char, text: string): string {
    if s == [] then [] else (if s[0] == c then text else [s[0]]) + Replace(s[1..], c, text)
  }

  /** Replace every two-character sequence `a b` by `c`, left to right. */
  function ReplacePair(s: string, a: char, b: char, c: char): string {
    if s == [] then []
    else if |s| >= 2 && s[0] == a && s[1] == b then [c] + ReplacePair(s[2..], a, b, c)
    else [s[0]] + ReplacePair(s[1..], a, b, c)
  }

  function Escape(key: string): string {
    Replace(Replace(key, '~', "~0"), '/', "~1")
  }

  function Unescape(token: string): string {
    ReplacePair(ReplacePair(token, '~', '1', '/'), '~', '0', '~')
  }

  lemma {:induction false} ReplaceAppend(s: string, t: string, c: char, text: string)
    ensures Replace(s + t, c, text) == Replace(s, c, text) + Replace(t, c, text)
    decreases |s|
  {
    if s == [] {
      assert s + t == t;
    } else {
      assert (s + t)[1..] == s[1..] + t;
      ReplaceAppend(s[1..], t, c, text);
      var head := if s[0] == c then text else [s[0]];
      assert head + (Replace(s[1..], c, text) + Replace(t, c, text)) == (head + Replace(s[1..], c, text)) + Replace(t, c, text);
    }
  }

  lemma ReplaceOne(x: char, c: char, text: string)
    ensures Replace([x], c, text) == if x == c then text else [x]
  {
    assert [x][1..] == [];
  }

  lemma {:induction false} EscapeNoSlash(key: string)
    ensures '/' !in Escape(key)
    decreases |key|
  {
    if key != [] {
      EscapeCons(key[0], key[1..]);
      assert [key[0]] + key[1..] == key;
      EscapeNoSlash(key[1..]);
    }
  }

  function EscapeChar(c: char): string {
    if c == '~' then "~0" else if c == '/' then "~1" else [c]
  }

  lemma EscapeCons(c: char, s: string)
    ensures Escape([c] + s) == EscapeChar(c) + Escape(s)
  {
    ReplaceAppend([c], s, '~', "~0");
    ReplaceAppend(Replace([c], '~', "~0"), Replace(s, '~', "~0"), '/', "~1");
    ReplaceOne(c, '~', "~0");
    ReplaceOne(c, '/', "~1");
    if c == '~' {
      ReplaceAppend(['~'], ['0'], '/', "~1");
      ReplaceOne('0', '/', "~1");
      assert ['~'] + ['0'] == "~0";
    }
  }

  /** The first unescaping pass gives back the tilde-escaped text. */
  lemma {:induction false} FirstPass(s: string)
    ensures ReplacePair(Escape(s), '~', '1', '/') == Replace(s, '~', "~0")
    decreases |s|
  {
    if s != [] {
      var c, rest := s[0], s[1..];
      assert [c] + rest == s;
      EscapeCons(c, rest);
      FirstPass(rest);
      var e := Escape(rest);
      if c == '~' {
        assert "~0" + e == ['~', '0'] + e;
        assert ("~0" + e)[1..] == ['0'] + e;
        assert (['0'] + e)[1..] == e;
      } else if c == '/' {
        assert ("~1" + e)[2..] == e;
      } else {
        assert ([c] + e)[1..] == e;
      }
    }
  }

  lemma {:induction false} SecondPass(s: string)
    ensures ReplacePair(Replace(s, '~', "~0"), '~', '0', '~') == s
    decreases |s|
  {
    if s != [] {
      var c, rest := s[0], s[1..];
      var t := Replace(rest, '~', "~0");
      SecondPass(rest);
      if c == '~' {
        assert ("~0" + t)[2..] == t;
      } else {
        assert ([c] + t)[1..] == t;
      }
    }
  }

  lemma UnescapeEscape(key: string)
    ensures Unescape(Escape(key)) == key
  {
    FirstPass(key);
    SecondPass(key);
  }

  // Pointers.

  /** `path` extended by every token in turn, as the service builds it. */
  function Render(path: string, tokens: seq<string>): string
    decreases |tokens|
  {
    if tokens == [] then path else Render(path + "/" + Escape(tokens[0]), tokens[1..])
  }

  /** The text before the next separator. */
  function NextSlash(s: string): nat
    ensures NextSlash(s) <= |s|
  {
    if s == [] || s[0] == '/' then 0 else 1 + NextSlash(s[1..])
  }

  /** The reference tokens of a pointer, unescaped; `None` for a malformed one. */
  function Parse(pointer: string): Option<seq<string>>
    decreases |pointer|
  {
    if pointer == "" then Some([])
    else if pointer[0] != '/' then None
    else
      var end := 1 + NextSlash(pointer[1..]);
      var rest := Parse(pointer[end..]);
      if rest.None? then None else Some([Unescape(pointer[1..end])] + rest.value)
  }

  lemma {:induction false} RenderAppends(path: string, tokens: seq<string>)
    ensures Render(path, tokens) == path + Render("", tokens)
    decreases |tokens|
  {
    if tokens != [] {
      var step := "/" + Escape(tokens[0]);
      RenderAppends(path + "/" + Escape(tokens[0]), tokens[1..]);
      RenderAppends("" + "/" + Escape(tokens[0]), tokens[1..]);
      assert path + "/" + Escape(tokens[0]) == path + step && "" + "/" + Escape(tokens[0]) == step;
      assert path + step + Render("", tokens[1..]) == path + (step + Render("", tokens[1..]));
    }
  }

  lemma {:induction false} NextSlashAfter(token: string, rest: string)
    requires '/' !in token && (rest == "" || rest[0] == '/')
    ensures NextSlash(token + rest) == |token|
    decreases |token|
  {
    if token == [] {
      assert token + rest == rest;
    } else {
      assert (token + rest)[1..] == token[1..] + rest;
      NextSlashAfter(token[1..], rest);
    }
  }

  lemma {:induction false} RenderStart(tokens: seq<string>)
    ensures Render("", tokens) == "" || Render("", tokens)[0] == '/'
    decreases |tokens|
  {
    if tokens != [] {
      RenderAppends("" + "/" + Escape(tokens[0]), tokens[1..]);
    }
  }

  /** Decoding a built path gives back exactly the keys it was built from. */
  lemma {:induction false} ParseRender(tokens: seq<string>)
    ensures Parse(Render("", tokens)) == Some(tokens)
    decreases |tokens|
  {
    if tokens != [] {
      var token, rest := Escape(tokens[0]), Render("", tokens[1..]);
      RenderAppends("" + "/" + token, tokens[1..]);
      var pointer := Render("", tokens);
      assert "" + "/" + token == "/" + token;
      assert pointer == "/" + (token + rest);
      assert pointer[1..] == token + rest;
      EscapeNoSlash(tokens[0]);
      RenderStart(tokens[1..]);
      NextSlashAfter(token, rest);
      assert pointer[1..1 + |token|] == token && pointer[1 + |token|..] == rest;
      UnescapeEscape(tokens[0]);
      ParseRender(tokens[1..]);
      assert [tokens[0]] + tokens[1..] == tokens;
    }
  }

  // Evaluation.

  function Decimal(n: nat): string {
    if n < 10 then [DigitChar(n)] else Decimal(n / 10) + [DigitChar(n % 10)]
  }

  function DigitChar(d: nat): char
    requires d < 10
  {
    (('0' as int) + d) as char
  }

  function DigitOf(c: char): Option<nat> {
    if '0' <= c <= '9' then Some((c as int) - ('0' as int)) else None
  }

  function Digits(s: string): Option<nat> {
    if s == [] then Some(0)
    else
      var front, last := Digits(s[..|s| - 1]), DigitOf(s[|s| - 1]);
      if front.None? || last.None? then None else Some(front.value * 10 + last.value)
  }

  /** An array index: `0`, or digits without a leading zero. */
  function Index(token: string): Option<nat> {
    if token == "" || (|token| > 1 && token[0] == '0') then None else Digits(token)
  }

  /** The member a token selects. */
  function Child(j: Json, token: string): (c: Option<Json>)
    ensures c.Some? ==> c.value < j
  {
    if j.Obj? then (if token in j.fields then Some(j.fields[token]) else None)
    else if j.Arr? then
      var i := Index(token);
      if i.Some? && i.value < |j.items| then Some(j.items[i.value]) else None
    else None
  }

  function Lookup(j: Option<Json>, tokens: seq<string>): Option<Json>
    decreases |tokens|
  {
    if tokens == [] || j.None? then j else Lookup(Child(j.value, tokens[0]), tokens[1..])
  }

  lemma DigitOfChar(d: nat)
    requires d < 10
    ensures DigitOf(DigitChar(d)) == Some(d) && (d > 0 ==> DigitChar(d) != '0')
  {
  }

  lemma DigitsSnoc(s: string, c: char)
    requires Digits(s).Some? && DigitOf(c).Some?
    ensures Digits(s + [c]) == Some(Digits(s).value * 10 + DigitOf(c).value)
  {
    assert (s + [c])[..|s|] == s;
  }

  lemma {:induction false} DigitsDecimal(n: nat)
    ensures Decimal(n) != "" && Digits(Decimal(n)) == Some(n)
    ensures n > 0 ==> Decimal(n)[0] != '0'
    decreases n
  {
    if n < 10 {
      DigitOfChar(n);
      DigitsSnoc([], DigitChar(n));
      assert [] + [DigitChar(n)] == Decimal(n);
    } else {
      DigitsDecimal(n / 10);
      DigitOfChar(n % 10);
      DigitsSnoc(Decimal(n / 10), DigitChar(n % 10));
    }
  }

  lemma IndexDecimal(n: nat)
    ensures Index(Decimal(n)) == Some(n)
  {
    DigitsDecimal(n);
  }

  /** An index has one spelling, and it needs no escaping. */
  lemma {:induction false} DecimalUnique(s: string)
    requires Digits(s).Some? && s != "" && (|s| > 1 ==> s[0] != '0')
    ensures s == Decimal(Digits(s).value) && (s[0] != '0' ==> Digits(s).value > 0)
    decreases |s|
  {
    var front := s[..|s| - 1];
    if front != [] {
      DecimalUnique(front);
      assert s == front + [s[|s| - 1]];
    } else {
      assert Digits(front) == Some(0);
      assert s == [s[0]];
    }
  }

  lemma IndexUnique(token: string)
    requires Index(token).Some?
    ensures token == Decimal(Index(token).value)
  {
    DecimalUnique(token);
  }

  lemma {:induction false} EscapeDecimal(n: nat)
    ensures Escape(Decimal(n)) == Decimal(n)
  {
    DecimalPlain(n);
    EscapePlain(Decimal(n));
  }

  lemma {:induction false} DecimalPlain(n: nat)
    ensures '~' !in Decimal(n) && '/' !in Decimal(n)
    decreases n
  {
    if n >= 10 {
      DecimalPlain(n / 10);
    }
  }

  lemma {:induction false} EscapePlain(s: string)
    requires '~' !in s && '/' !in s
    ensures Escape(s) == s
    decreases |s|
  {
    if s != [] {
      EscapeCons(s[0], s[1..]);
      assert [s[0]] + s[1..] == s;
      EscapePlain(s[1..]);
    }
  }

  /** The escapes of section 3 of RFC 6901, and its own example. */
  lemma EscapesOfTheStandard()
    ensures Escape("~") == "~0" && Escape("/") == "~1"
    ensures Unescape("~0") == "~" && Unescape("~1") == "/" && Unescape("~01") == "~1"
  {
    EscapeCons('~', "");
    EscapeCons('/', "");
    assert ['~'] + "" == "~" && ['/'] + "" == "/";
    assert "~0"[1..] == "0" && "~01"[1..] == "01" && "01"[1..] == "1" && "~01"[2..] == "1" && "~1"[2..] == "" && "~0"[2..] == "";
  }
}
