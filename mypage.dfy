/**
 * The two pure string helpers of the web client's "my page"
 * (apps/web/src/mypage.ts): the HTML escaper applied to every server
 * string before it is placed in markup, and the label shown for an
 * event's mode.
 */
module MyPage {
  import opened Wrappers
  import opened Text

  /** `str.replace(/c/g, repl)`: every occurrence of `c` replaced by `repl`, the rest copied in order. */
  function ReplaceAll(s: string, c: char, repl: string): (r: string)
    ensures c !in repl ==> c !in r
  {
    if s == [] then [] else (if s[0] == c then repl else [s[0]]) + ReplaceAll(s[1..], c, repl)
  }

  /** A character that is neither replaced nor introduced occurs after the replacement exactly when it did before. */
  lemma {:induction false} ReplaceKeepsOthers(s: string, c: char, repl: string, d: char)
    requires d != c && d !in repl
    ensures d in ReplaceAll(s, c, repl) <==> d in s
  {
    if s != [] {
      ReplaceKeepsOthers(s[1..], c, repl, d);
      assert s == [s[0]] + s[1..];
    }
  }

  lemma {:induction false} ReplaceAllConcat(a: string, b: string, c: char, repl: string)
    ensures ReplaceAll(a + b, c, repl) == ReplaceAll(a, c, repl) + ReplaceAll(b, c, repl)
  {
    if a == [] {
      assert a + b == b;
    } else {
      assert (a + b)[0] == a[0] && (a + b)[1..] == a[1..] + b;
      ReplaceAllConcat(a[1..], b, c, repl);
    }
  }

  lemma {:induction false} ReplaceAbsent(s: string, c: char, repl: string)
    requires c !in s
    ensures ReplaceAll(s, c, repl) == s
  {
    if s != [] {
      ReplaceAbsent(s[1..], c, repl);
    }
  }

  /** `escapeHtml(str)`: `&` first, then `<`, `>` and `"`. */
  function EscapeHtml(s: string): (r: string)
    ensures '<' !in r && '>' !in r && '"' !in r
  {
    var lt := ReplaceAll(ReplaceAll(s, '&', "&amp;"), '<', "&lt;");
    ReplaceKeepsOthers(lt, '>', "&gt;", '<');
    var gt := ReplaceAll(lt, '>', "&gt;");
    ReplaceKeepsOthers(gt, '"', "&quot;", '<');
    ReplaceKeepsOthers(gt, '"', "&quot;", '>');
    ReplaceAll(gt, '"', "&quot;")
  }

  /** The entity each special character becomes, and any other character itself. */
  function EscapeChar(c: char): string {
    match c
    case '&' => "&amp;"
    case '<' => "&lt;"
    case '>' => "&gt;"
    case '"' => "&quot;"
    case _ => [c]
  }

  /** Escaping as a single left-to-right pass, one character at a time. */
  function EscapeOnePass(s: string): string {
    if s == [] then [] else EscapeChar(s[0]) + EscapeOnePass(s[1..])
  }

  /**
   * Because `&` is replaced first, the ampersands of the entities added
   * afterwards are never escaped again: the chain of four replacements is
   * the one-pass escape.
   */
  lemma {:induction false} EscapeHtmlIsOnePass(s: string)
    ensures EscapeHtml(s) == EscapeOnePass(s)
  {
    if s != [] {
      var x := s[0];
      assert s == [x] + s[1..];
      ReplaceAllConcat([x], s[1..], '&', "&amp;");
      var a := ReplaceAll(s[1..], '&', "&amp;");
      ReplaceAllConcat(ReplaceAll([x], '&', "&amp;"), a, '<', "&lt;");
      var b := ReplaceAll(a, '<', "&lt;");
      ReplaceAllConcat(ReplaceAll(ReplaceAll([x], '&', "&amp;"), '<', "&lt;"), b, '>', "&gt;");
      var c := ReplaceAll(b, '>', "&gt;");
      ReplaceAllConcat(ReplaceAll(ReplaceAll(ReplaceAll([x], '&', "&amp;"), '<', "&lt;"), '>', "&gt;"), c, '"', "&quot;");
      EscapeHtmlIsOnePass(s[1..]);
      EscapeSingle(x);
    }
  }

  lemma EscapeSingle(x: char)
    ensures EscapeHtml([x]) == EscapeChar(x)
  {
    if x == '&' {
      EscapeAmpAlone();
    } else {
      ReplaceSingle(x, '&', "&amp;");
      EscapeSingleAfterAmp(x);
    }
  }

  /** A lone `&` becomes `&amp;`, whose characters the later replacements leave alone. */
  lemma EscapeAmpAlone()
    ensures EscapeHtml("&") == "&amp;"
  {
    var amp := "&amp;";
    assert '<' !in amp && '>' !in amp && '"' !in amp;
    ReplaceSingle('&', '&', amp);
    var lt := ReplaceAll(ReplaceAll("&", '&', amp), '<', "&lt;");
    assert lt == amp by {
      ReplaceAbsent(amp, '<', "&lt;");
    }
    var gt := ReplaceAll(lt, '>', "&gt;");
    assert gt == amp by {
      ReplaceAbsent(amp, '>', "&gt;");
    }
    ReplaceAbsent(amp, '"', "&quot;");
  }

  /** A character other than `&` passes the first replacement and meets the other three. */
  lemma EscapeSingleAfterAmp(x: char)
    requires x != '&'
    ensures ReplaceAll(ReplaceAll(ReplaceAll([x], '<', "&lt;"), '>', "&gt;"), '"', "&quot;") == EscapeChar(x)
  {
    ReplaceSingle(x, '<', "&lt;");
    if x == '<' {
      ReplaceAbsent("&lt;", '>', "&gt;");
      ReplaceAbsent("&lt;", '"', "&quot;");
    } else {
      ReplaceSingle(x, '>', "&gt;");
      if x == '>' {
        ReplaceAbsent("&gt;", '"', "&quot;");
      } else {
        ReplaceSingle(x, '"', "&quot;");
      }
    }
  }

  lemma ReplaceSingle(x: char, c: char, repl: string)
    ensures ReplaceAll([x], c, repl) == if x == c then repl else [x]
  {
    assert [x][1..] == [];
  }

  /** Decoding the four entities `escapeHtml` produces. */
  function Unescape(s: string): string
    decreases |s|
  {
    if s == [] then []
    else if HasPrefix(s, "&amp;") then "&" + Unescape(s[5..])
    else if HasPrefix(s, "&lt;") then "<" + Unescape(s[4..])
    else if HasPrefix(s, "&gt;") then ">" + Unescape(s[4..])
    else if HasPrefix(s, "&quot;") then "\"" + Unescape(s[6..])
    else [s[0]] + Unescape(s[1..])
  }

  /**
   * Nothing is lost or reordered: decoding the escaped text gives back the
   * original, so every character other than the four special ones,
   * including `'`, is copied unchanged and in order.
   */
  lemma {:induction false} EscapeHtmlRoundTrip(s: string)
    ensures Unescape(EscapeHtml(s)) == s
  {
    EscapeHtmlIsOnePass(s);
    UnescapeOnePass(s);
  }

  lemma {:induction false} UnescapeOnePass(s: string)
    ensures Unescape(EscapeOnePass(s)) == s
  {
    if s != [] {
      UnescapeOnePass(s[1..]);
      UnescapeChar(s[0], EscapeOnePass(s[1..]));
      assert s == [s[0]] + s[1..];
    }
  }

  /** Decoding undoes one escaped character. */
  lemma UnescapeChar(x: char, e: string)
    ensures Unescape(EscapeChar(x) + e) == [x] + Unescape(e)
  {
    if x == '&' {
      UnescapeEntity("&amp;", e);
    } else if x == '<' {
      UnescapeEntity("&lt;", e);
    } else if x == '>' {
      UnescapeEntity("&gt;", e);
    } else if x == '"' {
      UnescapeEntity("&quot;", e);
    } else {
      UnescapePlain(x, e);
    }
  }

  /** An entity at the front decodes to its character. */
  lemma UnescapeEntity(entity: string, e: string)
    requires entity in {"&amp;", "&lt;", "&gt;", "&quot;"}
    ensures Unescape(entity + e) ==
      (if entity == "&amp;" then "&" else if entity == "&lt;" then "<" else if entity == "&gt;" then ">" else "\"") + Unescape(e)
  {
    var w := entity + e;
    PrefixOfConcat(entity, e);
    assert w[0] == '&' && w[1] == entity[1];
    if entity == "&amp;" {
      assert HasPrefix(w, "&amp;");
    } else if entity == "&lt;" {
      assert !HasPrefix(w, "&amp;") by { assert w[1] == 'l'; }
      assert HasPrefix(w, "&lt;");
    } else if entity == "&gt;" {
      assert !HasPrefix(w, "&amp;") && !HasPrefix(w, "&lt;") by { assert w[1] == 'g'; }
      assert HasPrefix(w, "&gt;");
    } else {
      assert !HasPrefix(w, "&amp;") && !HasPrefix(w, "&lt;") && !HasPrefix(w, "&gt;") by { assert w[1] == 'q'; }
      assert HasPrefix(w, "&quot;");
    }
  }

  /** A character that is not one of the four special ones decodes to itself. */
  lemma UnescapePlain(x: char, e: string)
    requires x != '&' && x != '<' && x != '>' && x != '"'
    ensures Unescape([x] + e) == [x] + Unescape(e)
  {
    var w := [x] + e;
    assert w[0] == x && w[1..] == e;
  }

  /** Text with none of the four special characters comes out as it went in. */
  lemma EscapeKeepsPlainText(s: string)
    requires '&' !in s && '<' !in s && '>' !in s && '"' !in s
    ensures EscapeHtml(s) == s
  {
    ReplaceAbsent(s, '&', "&amp;");
    ReplaceAbsent(s, '<', "&lt;");
    ReplaceAbsent(s, '>', "&gt;");
    ReplaceAbsent(s, '"', "&quot;");
  }

  /** `getModeLabel(mode)`: the history label for an event's mode. */
  function GetModeLabel(mode: Option<string>): (text: string)
    ensures text == "帰宅時" <==> mode == Some("home")
    ensures text == "食事前" <==> mode == Some("meal")
    ensures text == "手洗い" <==> mode != Some("home") && mode != Some("meal")
  {
    if mode == Some("home") then "帰宅時"
    else if mode == Some("meal") then "食事前"
    else "手洗い"
  }
}
