/** The "use it from your code" panel: a request to the execute endpoint
    written out in cURL, Python or JavaScript, with the prompt, provider and
    model filled in. The prompt is put inside a double-quoted JSON string in
    the cURL and JavaScript snippets and inside a triple-quoted string in the
    Python one. */
module Snippets {
  import opened Common

  const DefaultOrigin := "http://localhost:8000"
  const ExecutePath := "/api/v1/execute"

  datatype Language = Curl | Python | JavaScript

  /** `sub` occurs somewhere in `s`. */
  ghost predicate Contains(s: string, sub: string) {
    exists k :: OccursAt(s, sub, k)
  }

  /** A piece glued between two others occurs right after the first. */
  lemma OccursBetween(a: string, b: string, c: string)
    ensures OccursAt(a + b + c, b, |a|)
  {
  }

  /** A text built as `a + b + c` contains `b`. */
  lemma Embedded(r: string, a: string, b: string, c: string)
    requires r == a + b + c
    ensures Contains(r, b)
  {
    OccursBetween(a, b, c);
  }

  /** What contains `a + b + c` contains `b`. */
  lemma ContainsMiddle(s: string, a: string, b: string, c: string)
    requires Contains(s, a + b + c)
    ensures Contains(s, b)
  {
    var k :| OccursAt(s, a + b + c, k);
    assert s[k..k + |a + b + c|][|a|..|a| + |b|] == s[k + |a|..k + |a| + |b|];
    OccursBetween(a, b, c);
    assert OccursAt(s, b, k + |a|);
  }

  /** The number of occurrences of `c` in `s`. */
  function Count(s: string, c: char): nat {
    if s == [] then 0 else (if s[0] == c then 1 else 0) + Count(s[1..], c)
  }

  /** `s.replace(/c/g, rep)` for a single character `c`. */
  function ReplaceAll(s: string, c: char, rep: string): (r: string)
    ensures |r| == |s| + Count(s, c) * (|rep| - 1)
  {
    if s == [] then []
    else (if s[0] == c then rep else [s[0]]) + ReplaceAll(s[1..], c, rep)
  }

  /** Replacing distributes over concatenation. */
  lemma {:induction false} ReplaceAllAppend(s: string, t: string, c: char, rep: string)
    ensures ReplaceAll(s + t, c, rep) == ReplaceAll(s, c, rep) + ReplaceAll(t, c, rep)
  {
    if s == [] {
      assert s + t == t;
    } else {
      assert (s + t)[1..] == s[1..] + t;
      ReplaceAllAppend(s[1..], t, c, rep);
    }
  }

  // ---------------------------------------------------------------------
  // The escaping the snippets apply: quotes first, then line feeds.
  // ---------------------------------------------------------------------

  /** `rawText.replace(/"/g, '\\"').replace(/\n/g, '\\n')`: every quote
      becomes a backslash and a quote, every line feed a backslash and `n`,
      and backslashes and all other characters are kept, one character at
      a time (`EscapeChar`). */
  function Escape(s: string): (r: string)
    ensures r == EscapeEach(s)
  {
    EscapeIsPerCharacter(s);
    ReplaceAll(ReplaceAll(s, '"', "\\\""), '\n', "\\n")
  }

  /** What the two passes do to one character. */
  function EscapeChar(c: char): string {
    if c == '"' then "\\\"" else if c == '\n' then "\\n" else [c]
  }

  /** The escaping as one pass over the characters. The output never holds
      a line feed, every quote in it follows a backslash, and it is longer
      than the input by one character per quote and per line feed. */
  function EscapeEach(s: string): (r: string)
    ensures forall i :: 0 <= i < |r| ==> r[i] != '\n'
    ensures forall i :: 0 <= i < |r| && r[i] == '"' ==> i > 0 && r[i - 1] == '\\'
    ensures |r| == |s| + Count(s, '"') + Count(s, '\n')
  {
    if s == [] then []
    else
      var head, tail := EscapeChar(s[0]), EscapeEach(s[1..]);
      assert forall i :: |head| <= i < |head + tail| ==> (head + tail)[i] == tail[i - |head|];
      head + tail
  }

  /** The two passes the snippets make equal the one-pass escaping. */
  lemma {:induction false} EscapeIsPerCharacter(s: string)
    ensures ReplaceAll(ReplaceAll(s, '"', "\\\""), '\n', "\\n") == EscapeEach(s)
  {
    if s != [] {
      var q := "\\\"";
      assert s == [s[0]] + s[1..];
      ReplaceAllAppend([s[0]], s[1..], '"', q);
      var once := ReplaceAll([s[0]], '"', q);
      ReplaceAllAppend(once, ReplaceAll(s[1..], '"', q), '\n', "\\n");
      assert ReplaceAll(once, '\n', "\\n") == EscapeChar(s[0]) by {
        if s[0] == '"' {
          assert once == q;
          assert ReplaceAll(q[1..], '\n', "\\n") == q[1..];
        }
      }
      EscapeIsPerCharacter(s[1..]);
    }
  }

  /** The escaped prompt of the cURL and JavaScript snippets has no line
      feed, shows every quote behind a backslash, and grows by one
      character per quote and per line feed of the prompt. */
  lemma EscapedTextShape(s: string)
    ensures forall i :: 0 <= i < |Escape(s)| ==> Escape(s)[i] != '\n'
    ensures forall i :: 0 <= i < |Escape(s)| && Escape(s)[i] == '"' ==> i > 0 && Escape(s)[i - 1] == '\\'
    ensures |Escape(s)| == |s| + Count(s, '"') + Count(s, '\n')
  {
    EscapeIsPerCharacter(s);
  }

  // ---------------------------------------------------------------------
  // Reading a double-quoted string back, and the escaping it needs.
  // ---------------------------------------------------------------------

  /** The character a backslash followed by `c` stands for, among the
      two-character escapes of a JSON string. */
  function EscapedChar(c: char): Option<char> {
    match c
    case '\\' => Some('\\')
    case '"' => Some('"')
    case '/' => Some('/')
    case 'b' => Some('\U{8}')
    case 'f' => Some('\U{C}')
    case 'n' => Some('\n')
    case 'r' => Some('\r')
    case 't' => Some('\t')
    case _ => None
  }

  /** The value of a hexadecimal digit, either case. */
  function HexValue(c: char): Option<nat> {
    if '0' <= c <= '9' then Some(c as nat - '0' as nat)
    else if 'a' <= c <= 'f' then Some(c as nat - 'a' as nat + 10)
    else if 'A' <= c <= 'F' then Some(c as nat - 'A' as nat + 10)
    else None
  }

  /** The character written as `\uXXXX` by the four digits `h`; a surrogate
      half is refused, since pairs of them are not read here. */
  function UnicodeEscape(h: string): Option<char>
    requires |h| == 4
  {
    match (HexValue(h[0]), HexValue(h[1]), HexValue(h[2]), HexValue(h[3]))
    case (Some(a), Some(b), Some(c), Some(d)) =>
      var v := ((a * 16 + b) * 16 + c) * 16 + d;
      if v < 0xD800 || 0xE000 <= v then Some(v as char) else None
    case _ => None
  }

  /** How a JSON parser reads the contents of a double-quoted string: a
      bare quote would end the string and no character below U+0020 may
      appear unescaped; a backslash starts one of the two-character escapes
      or a `\uXXXX` escape. */
  function Unescape(s: string): (r: Option<string>)
    decreases |s|
  {
    if s == [] then Some([])
    else if s[0] == '"' || s[0] < ' ' then None
    else if s[0] != '\\' then
      (match Unescape(s[1..]) case Some(t) => Some([s[0]] + t) case None => None)
    else if |s| < 2 then None
    else if s[1] == 'u' then
      if |s| < 6 then None
      else
        match UnicodeEscape(s[2..6])
        case None => None
        case Some(d) => (match Unescape(s[6..]) case Some(t) => Some([d] + t) case None => None)
    else
      match EscapedChar(s[1])
      case None => None
      case Some(d) => (match Unescape(s[2..]) case Some(t) => Some([d] + t) case None => None)
  }

  /** The lower-case hexadecimal digit of `n`. */
  function HexDigit(n: nat): (c: char)
    requires n < 16
    ensures HexValue(c) == Some(n)
  {
    if n < 10 then ('0' as nat + n) as char else ('a' as nat + n - 10) as char
  }

  /** The escaping a double-quoted JSON string needs: a backslash before
      backslashes and quotes, `\n` for a line feed, and `\u00XX` for every
      other character below U+0020. */
  function JsonEscapeChar(c: char): (r: string)
    ensures forall i :: 0 <= i < |r| ==> ' ' <= r[i]
  {
    if c == '\\' then "\\\\"
    else if c == '"' || c == '\n' then EscapeChar(c)
    else if c < ' ' then "\\u00" + [HexDigit(c as nat / 16), HexDigit(c as nat % 16)]
    else [c]
  }

  /** The number of characters below U+0020 other than the line feed. */
  function OtherControls(s: string): nat {
    if s == [] then 0 else (if s[0] < ' ' && s[0] != '\n' then 1 else 0) + OtherControls(s[1..])
  }

  /** The corrected escaping. Its output holds no character below U+0020,
      and it is longer than the input by one character per backslash, quote
      and line feed and five per other control character. */
  function JsonEscape(s: string): (r: string)
    ensures forall i :: 0 <= i < |r| ==> ' ' <= r[i]
    ensures |r| == |s| + Count(s, '\\') + Count(s, '"') + Count(s, '\n') + 5 * OtherControls(s)
  {
    if s == [] then []
    else
      var head, tail := JsonEscapeChar(s[0]), JsonEscape(s[1..]);
      assert forall i :: |head| <= i < |head + tail| ==> (head + tail)[i] == tail[i - |head|];
      head + tail
  }

  /** One escaped character, followed by text that reads back, reads back
      as that character followed by it. */
  lemma EscapedCharReadsBack(c: char, rest: string, t: string)
    requires Unescape(rest) == Some(t)
    ensures Unescape(JsonEscapeChar(c) + rest) == Some([c] + t)
  {
    var e := JsonEscapeChar(c) + rest;
    if c == '\\' || c == '"' || c == '\n' {
      assert e[0] == '\\' && e[2..] == rest;
    } else if c < ' ' {
      var h := [HexDigit(c as nat / 16), HexDigit(c as nat % 16)];
      assert e[0] == '\\' && e[1] == 'u' && e[6..] == rest;
      assert e[2..6] == "00" + h;
    } else {
      assert e[0] == c && e[1..] == rest;
    }
  }

  /** Whatever the prompt, the string in the corrected snippet reads back as
      the prompt. */
  lemma {:induction false} JsonEscapeRoundTrip(s: string)
    ensures Unescape(JsonEscape(s)) == Some(s)
  {
    if s != [] {
      JsonEscapeRoundTrip(s[1..]);
      EscapedCharReadsBack(s[0], JsonEscape(s[1..]), s[1..]);
      assert s == [s[0]] + s[1..];
    }
  }

  /** Different prompts give different snippets. */
  lemma JsonEscapeInjective(a: string, b: string)
    requires JsonEscape(a) == JsonEscape(b)
    ensures a == b
  {
    JsonEscapeRoundTrip(a);
    JsonEscapeRoundTrip(b);
  }

  /** The escaping as the snippets do it loses information: a backslash
      followed by `n` and a line feed come out the same, and the snippet
      sends a line feed where the prompt had a backslash and an `n`. */
  lemma EscapeNotInjective()
    ensures Escape("\\n") == Escape("\n") && "\\n" != "\n"
    ensures Unescape(Escape("\\n")) == Some("\n")
  {
    EscapeIsPerCharacter("\\n");
    EscapeIsPerCharacter("\n");
    assert EscapeEach("\\n") == "\\n" by {
      assert "\\n"[1..] == "n";
    }
    assert Unescape("\\n") == Some("\n") by {
      var s := "\\n";
      assert s[0] == '\\' && s[1] == 'n' && s[2..] == "";
      assert EscapedChar(s[1]) == Some('\n');
      assert Unescape(s[2..]) == Some([]);
      assert Unescape(s) == Some(['\n'] + []);
      assert ['\n'] + [] == "\n";
    }
  }

  /** The escaping as the snippets do it leaves a tab as it is, and a JSON
      parser refuses a string holding one. */
  lemma EscapeKeepsTab()
    ensures Escape("\t") == "\t"
    ensures Unescape(Escape("\t")) == None
  {
    EscapeIsPerCharacter("\t");
  }

  // ---------------------------------------------------------------------
  // The three snippets.
  // ---------------------------------------------------------------------

  /** Every snippet has the same layout: fixed text (`a`, `c`, `e`, `g`)
      around four filled-in pieces (`b`, `d`, `f`, `h`), each of which
      appears whole in the result. */
  function Assemble(a: string, b: string, c: string, d: string, e: string,
                    f: string, g: string, h: string, i: string): (r: string)
    ensures Contains(r, b) && Contains(r, d) && Contains(r, f) && Contains(r, h)
  {
    var r := a + b + c + d + e + f + g + h + i;
    Embedded(r, a, b, c + d + e + f + g + h + i);
    Embedded(r, a + b + c, d, e + f + g + h + i);
    Embedded(r, a + b + c + d + e, f, g + h + i);
    Embedded(r, a + b + c + d + e + f + g, h, i);
    r
  }
  // ---------------------------------------------------------------------
  // ---------------------------------------------------------------------

  /** `${origin}/api/v1/execute`. */
  function ApiUrl(origin: string): string {
    origin + ExecutePath
  }

  /** The cURL snippet around an already escaped prompt `quoted`: the
      endpoint in quotes, then a JSON body whose `text` is `quoted` and
      whose `provider` and `model` are the values as given. */
  function CurlLayout(url: string, quoted: string, provider: string, model: string): (r: string)
    ensures Contains(r, "\"" + url + "\"")
    ensures Contains(r, "\"text\": \"" + quoted + "\"")
    ensures Contains(r, "\"provider\": \"" + provider + "\"")
    ensures Contains(r, "\"model\": \"" + model + "\"")
    ensures Contains(r, provider) && Contains(r, model)
  {
    var a := "curl -X POST ";
    var b := "\"" + url + "\"";
    var c := " \\\n  -H \"Content-Type: application/json\" \\\n  -d '{\n    ";
    var d := "\"text\": \"" + quoted + "\"";
    var e := ",\n    ";
    var f := "\"provider\": \"" + provider + "\"";
    var g := "\"model\": \"" + model + "\"";
    var h := "\n  }'";
    var r := Assemble(a, b, c, d, e, f, e, g, h);
    ContainsMiddle(r, "\"provider\": \"", provider, "\"");
    ContainsMiddle(r, "\"model\": \"", model, "\"");
    r
  }

  /** The cURL snippet as the panel writes it: the prompt goes into the
      body's `text` string with only its quotes and line feeds escaped. */
  function CurlCode(url: string, text: string, provider: string, model: string): (r: string)
    ensures Contains(r, "\"" + url + "\"")
    ensures Contains(r, "\"text\": \"" + Escape(text) + "\"")
    ensures Contains(r, "\"provider\": \"" + provider + "\"")
    ensures Contains(r, "\"model\": \"" + model + "\"")
    ensures Contains(r, provider) && Contains(r, model)
  {
    CurlLayout(url, Escape(text), provider, model)
  }

  /** The cURL snippet with the corrected escaping, whose `text` string
      reads back as the prompt (`JsonEscapeRoundTrip`). */
  function CurlCodeCorrected(url: string, text: string, provider: string, model: string): (r: string)
    ensures Contains(r, "\"" + url + "\"")
    ensures Contains(r, "\"text\": \"" + JsonEscape(text) + "\"")
    ensures Contains(r, provider) && Contains(r, model)
  {
    CurlLayout(url, JsonEscape(text), provider, model)
  }

  /** The Python snippet: the prompt as written between triple quotes, the
      provider and model as given. */
  function PythonCode(url: string, text: string, provider: string, model: string): (r: string)
    ensures Contains(r, "\"" + url + "\"")
    ensures Contains(r, "\"text\": \"\"\"" + text + "\"\"\"")
    ensures Contains(r, "\"provider\": \"" + provider + "\"")
    ensures Contains(r, "\"model\": \"" + model + "\"")
    ensures Contains(r, provider) && Contains(r, model)
  {
    var a := "import requests\n\nurl = ";
    var b := "\"" + url + "\"";
    var c := "\npayload = {\n    ";
    var d := "\"text\": \"\"\"" + text + "\"\"\"";
    var e := ",\n    ";
    var f := "\"provider\": \"" + provider + "\"";
    var g := "\"model\": \"" + model + "\"";
    var h := "\n}\n\nresponse = requests.post(url, json=payload)\nprint(response.json())";
    var r := Assemble(a, b, c, d, e, f, e, g, h);
    ContainsMiddle(r, "\"provider\": \"", provider, "\"");
    ContainsMiddle(r, "\"model\": \"", model, "\"");
    r
  }

  /** The JavaScript snippet around an already escaped prompt `quoted`: a
      `fetch` of the endpoint whose body object has `text` set to the
      string literal `quoted` and the provider and model as given. */
  function JsLayout(url: string, quoted: string, provider: string, model: string): (r: string)
    ensures Contains(r, "\"" + url + "\"")
    ensures Contains(r, "text: \"" + quoted + "\"")
    ensures Contains(r, "provider: \"" + provider + "\"")
    ensures Contains(r, "model: \"" + model + "\"")
    ensures Contains(r, provider) && Contains(r, model)
  {
    var a := "const response = await fetch(";
    var b := "\"" + url + "\"";
    var c := ", {\n  method: \"POST\",\n  headers: {\n    \"Content-Type\": \"application/json\",\n  },\n  body: JSON.stringify({\n    ";
    var d := "text: \"" + quoted + "\"";
    var e := ",\n    ";
    var f := "provider: \"" + provider + "\"";
    var g := "model: \"" + model + "\"";
    var h := ",\n  }),\n});\n\nconst data = await response.json();\nconsole.log(data);";
    var r := Assemble(a, b, c, d, e, f, e, g, h);
    ContainsMiddle(r, "provider: \"", provider, "\"");
    ContainsMiddle(r, "model: \"", model, "\"");
    r
  }

  /** The JavaScript snippet as the panel writes it: the prompt goes into
      the `text` literal with only its quotes and line feeds escaped. */
  function JsCode(url: string, text: string, provider: string, model: string): (r: string)
    ensures Contains(r, "\"" + url + "\"")
    ensures Contains(r, "text: \"" + Escape(text) + "\"")
    ensures Contains(r, "provider: \"" + provider + "\"")
    ensures Contains(r, "model: \"" + model + "\"")
    ensures Contains(r, provider) && Contains(r, model)
  {
    JsLayout(url, Escape(text), provider, model)
  }

  /** The JavaScript snippet with the corrected escaping, whose `text`
      literal reads back as the prompt (`JsonEscapeRoundTrip`). */
  function JsCodeCorrected(url: string, text: string, provider: string, model: string): (r: string)
    ensures Contains(r, "\"" + url + "\"")
    ensures Contains(r, "text: \"" + JsonEscape(text) + "\"")
    ensures Contains(r, provider) && Contains(r, model)
  {
    JsLayout(url, JsonEscape(text), provider, model)
  }

  /** The snippet of the chosen language, built for the endpoint under
      `origin`; what it carries is stated by `EverySnippetNamesEndpoint`. */
  function GetCode(lang: Language, origin: string, text: string, provider: string, model: string): string
  {
    var url := ApiUrl(origin);
    match lang
    case Curl => CurlCode(url, text, provider, model)
    case Python => PythonCode(url, text, provider, model)
    case JavaScript => JsCode(url, text, provider, model)
  }

  /** Whichever language is shown, the snippet names the endpoint under the
      page's origin and carries the provider and the model verbatim. */
  lemma EverySnippetNamesEndpoint(lang: Language, origin: string, text: string, provider: string, model: string)
    ensures Contains(GetCode(lang, origin, text, provider, model), "\"" + ApiUrl(origin) + "\"")
    ensures Contains(GetCode(lang, origin, text, provider, model), provider)
    ensures Contains(GetCode(lang, origin, text, provider, model), model)
  {
  }

  /** The entry that carries the prompt in the snippet of `lang`: escaped by
      `Escape` in the cURL and JavaScript snippets, raw between triple
      quotes in the Python one. */
  function PromptEntry(lang: Language, text: string): string {
    match lang
    case Curl => "\"text\": \"" + Escape(text) + "\""
    case Python => "\"text\": \"\"\"" + text + "\"\"\""
    case JavaScript => "text: \"" + Escape(text) + "\""
  }

  /** Whichever tab is shown, its snippet carries the prompt entry of that
      language. */
  lemma SnippetCarriesPrompt(lang: Language, origin: string, text: string, provider: string, model: string)
    ensures Contains(GetCode(lang, origin, text, provider, model), PromptEntry(lang, text))
  {
    var url := ApiUrl(origin);
    match lang
    case Curl => var r := CurlCode(url, text, provider, model);
    case Python => var r := PythonCode(url, text, provider, model);
    case JavaScript => var r := JsCode(url, text, provider, model);
  }

  class SnippetPanel {
    /** The component's props. */
    const rawText: string
    const provider: string
    const model: string
    var activeLang: Language
    var copied: bool
    var origin: string
    /** The text last written to the clipboard. */
    var clipboard: Option<string>

    constructor (text: string, prov: string, mdl: string)
      ensures rawText == text && provider == prov && model == mdl
      ensures activeLang == Curl && !copied && origin == DefaultOrigin && clipboard == None
    {
      rawText, provider, model := text, prov, mdl;
      activeLang, copied, origin, clipboard := Curl, false, DefaultOrigin, None;
    }

    /** The mount effect takes the page's own origin. */
    method Mount(windowOrigin: string)
      modifies this`origin
      ensures origin == windowOrigin
    {
      origin := windowOrigin;
    }

    /** A language tab. */
    method SelectLang(lang: Language)
      modifies this`activeLang
      ensures activeLang == lang
    {
      activeLang := lang;
    }

    /** "Copy": the snippet shown goes to the clipboard and the check mark
        appears. */
    method Copy() returns (text: string)
      modifies this`clipboard, this`copied
      ensures text == GetCode(activeLang, origin, rawText, provider, model)
      ensures clipboard == Some(text) && copied
    {
      text := GetCode(activeLang, origin, rawText, provider, model);
      clipboard := Some(text);
      copied := true;
    }

    /** Two seconds later the check mark goes. */
    method CopiedTimerFires()
      modifies this`copied
      ensures !copied
    {
      copied := false;
    }
  }
}
