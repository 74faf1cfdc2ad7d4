/**
 * The two string builders of the configuration server: `baseURL`, the
 * loopback URL of the server with an optional path component, and
 * `basePage`, the HTML page whose optional script keeps sending the browser
 * to the next URL every 600 ms.  Beside them: the decimal rendering of the
 * port that Swift's string interpolation performs, a parser that reads a
 * base URL back, and the fixed instructions page.
 */
module Pages {
  import opened Wrappers

  /** A TCP port, Swift's `in_port_t` (an unsigned 16-bit integer). */
  type Port = p: int | 0 <= p < 0x1_0000

  /** The display name every server gets; no caller changes it. */
  const DefaultConfigName: string := "Profile install"

  // ---------------------------------------------------------------------
  // Decimal rendering of the port, as `"\(listeningPort!)"` produces it
  // ---------------------------------------------------------------------

  predicate IsDigit(c: char) {
    '0' <= c <= '9'
  }

  predicate AllDigits(s: string) {
    forall i :: 0 <= i < |s| ==> IsDigit(s[i])
  }

  function DigitChar(d: nat): (c: char)
    requires d < 10
    ensures IsDigit(c)
  {
    (('0' as int) + d) as char
  }

  function DigitValue(c: char): (d: nat)
    requires IsDigit(c)
    ensures d < 10
  {
    (c as int) - ('0' as int)
  }

  /** The decimal numeral of `n`, most significant digit first. */
  function Decimal(n: nat): (s: string)
    ensures 0 < |s| && AllDigits(s)
    ensures |s| > 1 ==> s[0] != '0'
  {
    if n < 10 then [DigitChar(n)]
    else Decimal(n / 10) + [DigitChar(n % 10)]
  }

  /** The number a string of digits denotes. */
  function DigitsValue(s: string): nat
    requires AllDigits(s)
  {
    if s == [] then 0 else 10 * DigitsValue(s[..|s| - 1]) + DigitValue(s[|s| - 1])
  }

  lemma {:induction false} DecimalValue(n: nat)
    ensures DigitsValue(Decimal(n)) == n
  {
    if n >= 10 {
      var s := Decimal(n);
      assert s[..|s| - 1] == Decimal(n / 10);
      DecimalValue(n / 10);
    }
  }

  /** Splits `s` into its longest prefix of digits and the rest. */
  function SplitDigits(s: string): (r: (string, string))
    ensures r.0 + r.1 == s
    ensures AllDigits(r.0)
    ensures r.1 != [] ==> !IsDigit(r.1[0])
  {
    if s == [] || !IsDigit(s[0]) then ([], s)
    else
      var (digits, rest) := SplitDigits(s[1..]);
      ([s[0]] + digits, rest)
  }

  /** The split is determined by the two halves: it stops exactly where the digits stop. */
  lemma {:induction false} SplitDigitsOf(digits: string, rest: string)
    requires AllDigits(digits)
    requires rest != [] ==> !IsDigit(rest[0])
    ensures SplitDigits(digits + rest) == (digits, rest)
  {
    if digits != [] {
      assert (digits + rest)[0] == digits[0] && IsDigit(digits[0]);
      assert (digits + rest)[1..] == digits[1..] + rest;
      SplitDigitsOf(digits[1..], rest);
      assert [digits[0]] + digits[1..] == digits;
    } else {
      assert digits + rest == rest;
    }
  }

  // ---------------------------------------------------------------------
  // baseURL
  // ---------------------------------------------------------------------

  const UrlPrefix: string := "http://localhost:"

  /** `baseURL(pathComponent:)`: the server's own address, then `/` and the component if given. */
  function BaseUrl(port: Port, component: Option<string>): (url: string)
    ensures |UrlPrefix| < |url| && url[..|UrlPrefix|] == UrlPrefix
    ensures component.Some? ==>
      |UrlPrefix| + |component.value| + 1 < |url| && url[|url| - |component.value| - 1..] == "/" + component.value
  {
    var page := UrlPrefix + Decimal(port);
    match component
    case None => page
    case Some(c) => page + "/" + c
  }

  /** Reads a base URL back into its port and its path component. */
  function ParseBaseUrl(url: string): Option<(Port, Option<string>)>
  {
    if |url| < |UrlPrefix| || url[..|UrlPrefix|] != UrlPrefix then None
    else
      var (digits, rest) := SplitDigits(url[|UrlPrefix|..]);
      if digits == [] || DigitsValue(digits) >= 0x1_0000 then None
      else if rest == [] then Some((DigitsValue(digits), None))
      else if rest[0] == '/' then Some((DigitsValue(digits), Some(rest[1..])))
      else None
  }

  /** A base URL names its port and its component unambiguously. */
  lemma BaseUrlRoundTrip(port: Port, component: Option<string>)
    ensures ParseBaseUrl(BaseUrl(port, component)) == Some((port, component))
  {
    var digits := Decimal(port);
    var rest := match component case None => "" case Some(c) => "/" + c;
    var url := BaseUrl(port, component);
    assert url == UrlPrefix + (digits + rest);
    assert url[..|UrlPrefix|] == UrlPrefix;
    assert url[|UrlPrefix|..] == digits + rest;
    SplitDigitsOf(digits, rest);
    DecimalValue(port);
    if component.Some? {
      assert rest[1..] == component.value;
    }
  }

  /** Distinct ports or components give distinct URLs. */
  lemma BaseUrlInjective(p1: Port, c1: Option<string>, p2: Port, c2: Option<string>)
    requires BaseUrl(p1, c1) == BaseUrl(p2, c2)
    ensures p1 == p2 && c1 == c2
  {
    BaseUrlRoundTrip(p1, c1);
    BaseUrlRoundTrip(p2, c2);
  }

  // ---------------------------------------------------------------------
  // basePage
  // ---------------------------------------------------------------------

  const PageHead: string := "<!doctype html><html>" + "<head><meta charset='utf-8'><title>"
  const TitleClose: string := "</title></head>"
  const PageTail: string := "<body></body></html>"

  /** The script body: navigate to the component's URL, and repeat every 600 ms. */
  function RedirectScript(port: Port, component: string): string
  {
    "function load() { window.location.href='" + BaseUrl(port, Some(component)) + "'; }window.setInterval(load, 600);"
  }

  /** `basePage(pathComponent:)`: the title is the display name, inserted as it is. */
  function BasePage(name: string, port: Port, component: Option<string>): (page: string)
    ensures |PageHead| + |name| + |PageTail| <= |page|
    ensures page[..|PageHead|] == PageHead
    ensures page[|PageHead|..|PageHead| + |name|] == name
    ensures page[|page| - |PageTail|..] == PageTail
  {
    var script := match component
      case None => ""
      case Some(c) => "<script>" + RedirectScript(port, c) + "</script>";
    PageHead + name + TitleClose + script + PageTail
  }

  /** The page shown after the profile was served. */
  const InstructionsBody: string :=
    "<div style='margin: 40px;'><h1 style='font-size: 80px;'>Additional instructions:</h1><ol><li style='font-size: 50px;'>Go to Settings on your iOS device.</li><br /><li style='font-size: 50px;'>General &rarr; Profile &rarr; Downloaded Profile &rarr; Install</li><br /><li style='font-size: 50px;'>General &rarr; About &rarr; Certificate Trust Settings &rarr; Enable Full Trust for Root Certificates</li></ol></div>"
  const ShutdownFetch: string := "<script>fetch(\"/shutdown\")</script>"
  const InstructionsPage: string := InstructionsBody + ShutdownFetch

  // ---------------------------------------------------------------------
  // What the pages contain
  // ---------------------------------------------------------------------

  ghost predicate ContainsAt(s: string, part: string, i: int) {
    0 <= i && i + |part| <= |s| && s[i..i + |part|] == part
  }

  ghost predicate Contains(s: string, part: string) {
    exists i :: ContainsAt(s, part, i)
  }

  lemma ContainsMiddle(a: string, b: string, c: string)
    ensures ContainsAt(a + b + c, b, |a|)
  {
    assert (a + b + c)[|a|..|a| + |b|] == b;
  }

  lemma ScriptHeadLiteral()
    ensures "function load() { window.location.href='" == "function load() { " + "window.location.href='"
  {
  }

  lemma ScriptTailLiteral()
    ensures "'; }window.setInterval(load, 600);" == "'" + "; }" + RepeatEvery600Ms
  {
  }

  lemma Regroup5(a: string, b: string, url: string, c: string, d: string, e: string)
    ensures (a + b) + url + (c + d + e) == a + (b + url + c) + d + e
  {
  }

  lemma ScriptAround(url: string)
    ensures "function load() { window.location.href='" + url + "'; }window.setInterval(load, 600);"
         == "function load() { " + NavigationTo(url) + "; }" + RepeatEvery600Ms
  {
    ScriptHeadLiteral();
    ScriptTailLiteral();
    Regroup5("function load() { ", "window.location.href='", url, "'", "; }", RepeatEvery600Ms);
  }

  /** The redirect script, cut around the navigation target and the repetition. */
  lemma RedirectScriptParts(port: Port, component: string)
    ensures RedirectScript(port, component)
         == "function load() { " + NavigationTo(BaseUrl(port, Some(component))) + "; }" + RepeatEvery600Ms
  {
    ScriptAround(BaseUrl(port, Some(component)));
  }

  function NavigationTo(url: string): string {
    "window.location.href='" + url + "'"
  }

  const RepeatEvery600Ms: string := "window.setInterval(load, 600);"

  /** A `<script>` element around `body`. */
  function ScriptElement(body: string): string {
    "<script>" + body + "</script>"
  }

  /** A script whose `load` navigates to `url` and which runs `load` every 600 ms. */
  function LoadEvery600Ms(url: string): string {
    "function load() { " + NavigationTo(url) + "; }" + RepeatEvery600Ms
  }

  /** Regroups a concatenation so that the piece `t` stands alone. */
  lemma Regroup(h: string, open: string, f: string, t: string, s: string, r: string, close: string, tail: string)
    ensures h + (open + (f + t + s + r) + close) + tail == (h + open + f) + t + (s + r + (close + tail))
    ensures h + (open + (f + t + s + r) + close) + tail == (h + open + f + t + s) + r + (close + tail)
  {
  }

  /**
   * With a component, the page holds a script element whose `load` navigates
   * to that component's URL and which runs `load` every 600 ms.
   */
  lemma RedirectPageNavigates(name: string, port: Port, component: string)
    ensures Contains(BasePage(name, port, Some(component)), ScriptElement(LoadEvery600Ms(BaseUrl(port, Some(component)))))
    ensures Contains(BasePage(name, port, Some(component)), NavigationTo(BaseUrl(port, Some(component))))
    ensures Contains(BasePage(name, port, Some(component)), RepeatEvery600Ms)
  {
    var head := PageHead + name + TitleClose;
    var target := NavigationTo(BaseUrl(port, Some(component)));
    RedirectScriptParts(port, component);
    assert BasePage(name, port, Some(component))
        == head + ("<script>" + ("function load() { " + target + "; }" + RepeatEvery600Ms) + "</script>") + PageTail;
    ContainsMiddle(head, ScriptElement(LoadEvery600Ms(BaseUrl(port, Some(component)))), PageTail);
    Regroup(head, "<script>", "function load() { ", target, "; }", RepeatEvery600Ms, "</script>", PageTail);
    ContainsMiddle(head + "<script>" + "function load() { ", target, "; }" + RepeatEvery600Ms + ("</script>" + PageTail));
    ContainsMiddle(head + "<script>" + "function load() { " + target + "; }", RepeatEvery600Ms, "</script>" + PageTail);
  }

  lemma ShutdownFetchParts()
    ensures ShutdownFetch == "<script>" + "fetch(\"/shutdown\")" + "</script>"
  {
  }

  /** The instructions page holds a script element that asks the server to shut its listener down. */
  lemma InstructionsRequestShutdown()
    ensures Contains(InstructionsPage, ScriptElement("fetch(\"/shutdown\")"))
    ensures Contains(InstructionsPage, "fetch(\"/shutdown\")")
  {
    ShutdownFetchParts();
    assert InstructionsPage == InstructionsBody + ScriptElement("fetch(\"/shutdown\")") + "";
    ContainsMiddle(InstructionsBody, ScriptElement("fetch(\"/shutdown\")"), "");
    assert InstructionsPage == (InstructionsBody + "<script>") + "fetch(\"/shutdown\")" + "</script>";
    ContainsMiddle(InstructionsBody + "<script>", "fetch(\"/shutdown\")", "</script>");
  }

  /**
   * No `<` of `s` is followed by an `s` or an `S`, so no tag name of `s`
   * starts with the letter s in either case: no script element opens in `s`.
   */
  ghost predicate NoScriptOpening(s: string) {
    forall i :: 0 <= i < |s| - 1 && s[i] == '<' ==> s[i + 1] != 's' && s[i + 1] != 'S'
  }

  lemma NoScriptOpeningConcat(a: string, b: string)
    requires NoScriptOpening(a) && NoScriptOpening(b)
    requires a != [] ==> a[|a| - 1] != '<'
    ensures NoScriptOpening(a + b)
  {
    var s := a + b;
    forall i | 0 <= i < |s| - 1 && s[i] == '<'
      ensures s[i + 1] != 's' && s[i + 1] != 'S'
    {
      if i + 1 < |a| {
        assert s[i] == a[i] && s[i + 1] == a[i + 1];
      } else if i >= |a| {
        assert s[i] == b[i - |a|] && s[i + 1] == b[i + 1 - |a|];
      }
    }
  }

  /** A tag `<` + `rest` whose rest holds no `<` and does not start with `s`. */
  lemma TagHasNoScriptOpening(rest: string)
    requires '<' !in rest
    requires rest != [] && rest[0] != 's' && rest[0] != 'S'
    ensures NoScriptOpening("<" + rest)
  {
    var s := "<" + rest;
    forall i | 0 <= i < |s| - 1 && s[i] == '<'
      ensures s[i + 1] != 's' && s[i + 1] != 'S'
    {
    }
  }

  /** Chains NoScriptOpeningConcat over five `<`-led tags. */
  lemma TagsHaveNoScriptOpening(t1: string, t2: string, t3: string, t4: string, t5: string)
    requires '<' !in t1 && '<' !in t2 && '<' !in t3 && '<' !in t4 && '<' !in t5
    requires t1 != [] && t1[0] != 's' && t1[0] != 'S' && t1[|t1| - 1] == '>'
    requires t2 != [] && t2[0] != 's' && t2[0] != 'S' && t2[|t2| - 1] == '>'
    requires t3 != [] && t3[0] != 's' && t3[0] != 'S' && t3[|t3| - 1] == '>'
    requires t4 != [] && t4[0] != 's' && t4[0] != 'S' && t4[|t4| - 1] == '>'
    requires t5 != [] && t5[0] != 's' && t5[0] != 'S' && t5[|t5| - 1] == '>'
    ensures NoScriptOpening("<" + t1 + "<" + t2 + "<" + t3 + "<" + t4 + "<" + t5)
  {
    TagHasNoScriptOpening(t1);
    TagHasNoScriptOpening(t2);
    TagHasNoScriptOpening(t3);
    TagHasNoScriptOpening(t4);
    TagHasNoScriptOpening(t5);
    NoScriptOpeningConcat("<" + t1, "<" + t2);
    NoScriptOpeningConcat("<" + t1 + "<" + t2, "<" + t3);
    NoScriptOpeningConcat("<" + t1 + "<" + t2 + "<" + t3, "<" + t4);
    NoScriptOpeningConcat("<" + t1 + "<" + t2 + "<" + t3 + "<" + t4, "<" + t5);
  }

  lemma DoctypeTags()
    ensures "<!doctype html><html>" == "<" + "!doctype html>" + "<" + "html>"
  {
  }

  lemma TitleTags()
    ensures "<head><meta charset='utf-8'><title>" == "<" + "head>" + "<" + "meta charset='utf-8'>" + "<" + "title>"
  {
  }

  lemma Regroup2And3(a: string, b: string, c: string, d: string, e: string, f: string, g: string, h: string, i: string, j: string)
    ensures (a + b + c + d) + (e + f + g + h + i + j) == a + b + c + d + e + f + g + h + i + j
  {
  }

  lemma HeadTags()
    ensures PageHead == "<" + "!doctype html>" + "<" + "html>" + "<" + "head>" + "<" + "meta charset='utf-8'>" + "<" + "title>"
  {
    DoctypeTags();
    TitleTags();
    Regroup2And3("<", "!doctype html>", "<", "html>", "<", "head>", "<", "meta charset='utf-8'>", "<", "title>");
  }

  lemma HeadHasNoScriptOpening()
    ensures NoScriptOpening(PageHead) && PageHead[|PageHead| - 1] == '>'
  {
    var t1, t2, t3, t4, t5 := "!doctype html>", "html>", "head>", "meta charset='utf-8'>", "title>";
    HeadTags();
    TagsHaveNoScriptOpening(t1, t2, t3, t4, t5);
  }

  lemma TailTags()
    ensures TitleClose + PageTail == "<" + "/title>" + "<" + "/head>" + "<" + "body>" + "<" + "/body>" + "<" + "/html>"
  {
  }

  lemma TailHasNoScriptOpening()
    ensures NoScriptOpening(TitleClose + PageTail)
  {
    var t1, t2, t3, t4, t5 := "/title>", "/head>", "body>", "/body>", "/html>";
    TailTags();
    TagsHaveNoScriptOpening(t1, t2, t3, t4, t5);
  }

  lemma NoScriptOpeningHasNoScript(s: string)
    requires NoScriptOpening(s)
    ensures !Contains(s, "<script>")
  {
    forall i | 0 <= i && i + 8 <= |s|
      ensures !ContainsAt(s, "<script>", i)
    {
      if s[i] == '<' {
        assert s[i..i + 8][1] == s[i + 1] != 's';
      } else {
        assert s[i..i + 8][0] == s[i];
      }
    }
  }

  /** A name without `<` between two tag runs opens no script. */
  lemma NoScriptAround(head: string, name: string, tail: string)
    requires NoScriptOpening(head) && NoScriptOpening(tail)
    requires head != [] && head[|head| - 1] != '<'
    requires '<' !in name
    ensures NoScriptOpening(head + name + tail)
    ensures !Contains(head + name + tail, "<script>")
  {
    NoScriptOpeningConcat(head, name);
    if name != [] {
      assert name[|name| - 1] in name;
    }
    assert (head + name)[|head + name| - 1] != '<' by {
      if name == [] {
        assert head + name == head;
      } else {
        assert (head + name)[|head + name| - 1] == name[|name| - 1];
      }
    }
    NoScriptOpeningConcat(head + name, tail);
    NoScriptOpeningHasNoScript(head + name + tail);
  }

  /**
   * The page without a component holds no script, provided the display name
   * holds no `<` (the name is inserted unescaped).
   */
  lemma TerminalPageHasNoScript(name: string, port: Port)
    requires '<' !in name
    ensures NoScriptOpening(BasePage(name, port, None))
    ensures !Contains(BasePage(name, port, None), "<script>")
  {
    HeadHasNoScriptOpening();
    TailHasNoScriptOpening();
    assert BasePage(name, port, None) == PageHead + name + (TitleClose + PageTail);
    NoScriptAround(PageHead, name, TitleClose + PageTail);
  }

  /** The default display name holds no `<`, so the server's terminal page has no script. */
  lemma DefaultTerminalPageHasNoScript(port: Port)
    ensures NoScriptOpening(BasePage(DefaultConfigName, port, None))
    ensures !Contains(BasePage(DefaultConfigName, port, None), "<script>")
  {
    TerminalPageHasNoScript(DefaultConfigName, port);
  }
}
