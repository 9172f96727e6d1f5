/**
 * The local behaviour of `sendApologyEmail`: the message it hands to the
 * email-delivery provider (fixed subject, line feeds turned into `<br>`,
 * wrapped in a styled `<div>`) and how the provider's `{ data, error }`
 * answer becomes a resolved value or a thrown error. The provider call
 * itself is not modelled; its answer is a parameter.
 */
module SendEmail {
  import opened Wrappers
  import opened JsString

  const Subject := "i owe you an apology"
  const DivOpen := "<div " + "style=\"font-family: " + "system-ui; " + "line-height: 1.6;\">"
  const DivClose := "</div>"
  const Br := "<br>"

  /** The number of line feeds in `s`. */
  function CountLF(s: string): (n: nat)
    ensures n <= |s|
    ensures n == 0 <==> '\n' !in s
  {
    if s == [] then 0
    else (if s[0] == '\n' then 1 else 0) + CountLF(s[1..])
  }

  /** `s.replace(/\n/g, "<br>")`. */
  function BreakLines(s: string): (r: string)
    ensures '\n' !in r
    ensures |r| == |s| + 3 * CountLF(s)
  {
    if s == [] then []
    else Piece(s[0]) + BreakLines(s[1..])
  }

  /** What one character of the input becomes. */
  function Piece(c: char): (p: string)
    ensures '\n' !in p
  {
    if c == '\n' then Br else [c]
  }

  lemma {:induction false} CountLFAppend(a: string, b: string)
    ensures CountLF(a + b) == CountLF(a) + CountLF(b)
  {
    if a != [] {
      assert (a + b)[0] == a[0] && (a + b)[1..] == a[1..] + b;
      CountLFAppend(a[1..], b);
    } else {
      assert a + b == b;
    }
  }

  /** The replacement works piece by piece. */
  lemma {:induction false} BreakLinesAppend(a: string, b: string)
    ensures BreakLines(a + b) == BreakLines(a) + BreakLines(b)
  {
    if a != [] {
      assert (a + b)[0] == a[0] && (a + b)[1..] == a[1..] + b;
      BreakLinesAppend(a[1..], b);
    } else {
      assert a + b == b;
    }
  }

  /**
   * Character `i` of the input lands at offset `i + 3 * (line feeds before
   * it)` of the output: a line feed as exactly one `<br>`, anything else
   * (a carriage return included) unchanged.
   */
  lemma BreakLinesAt(s: string, i: nat)
    requires i < |s|
    ensures var r, k := BreakLines(s), i + 3 * CountLF(s[..i]);
      && (s[i] == '\n' ==> k + 4 <= |r| && r[k..k + 4] == Br)
      && (s[i] != '\n' ==> k < |r| && r[k] == s[i])
  {
    var rest := [s[i]] + s[i + 1..];
    assert s == s[..i] + rest;
    BreakLinesAppend(s[..i], rest);
    assert rest[0] == s[i] && rest[1..] == s[i + 1..];
    var a, p, b := BreakLines(s[..i]), Piece(s[i]), BreakLines(s[i + 1..]);
    assert BreakLines(s) == a + p + b;
    assert |a| == i + 3 * CountLF(s[..i]);
    PieceAt(a, p, b);
    if s[i] != '\n' {
      assert p == [s[i]];
      assert (a + p + b)[|a|] == p[0];
    }
  }

  lemma PieceAt(a: string, p: string, b: string)
    ensures (a + p + b)[|a|..|a| + |p|] == p
  {
  }

  /** Text without line feeds passes through unchanged. */
  lemma {:induction false} BreakLinesWithoutLF(s: string)
    requires '\n' !in s
    ensures BreakLines(s) == s
  {
    if s != [] {
      assert s == [s[0]] + s[1..];
      BreakLinesWithoutLF(s[1..]);
    }
  }

  /** A Windows line ending keeps its carriage return. */
  lemma CrLfKeepsCr()
    ensures BreakLines("\r\n") == "\r<br>"
  {
    assert "\r\n"[1..] == "\n";
    assert "\n"[1..] == "";
  }

  /** The html body: the converted text inside the styled `<div>`. */
  function RenderHtml(text: string): (h: string)
    ensures |h| == |text| + 3 * CountLF(text) + |DivOpen| + |DivClose|
    ensures '\n' !in h
    ensures h[..|DivOpen|] == DivOpen
    ensures h[|DivOpen|..|h| - |DivClose|] == BreakLines(text)
    ensures h[|h| - |DivClose|..] == DivClose
  {
    var body := BreakLines(text);
    Wrapped(DivOpen, body, DivClose);
    WrapperHasNoLF();
    DivOpen + body + DivClose
  }

  lemma WrapperHasNoLF()
    ensures '\n' !in DivOpen && '\n' !in DivClose
  {
    assert '\n' !in "<div ";
    assert '\n' !in "style=\"font-family: ";
    assert '\n' !in "system-ui; ";
    assert '\n' !in "line-height: 1.6;\">";
  }

  lemma Wrapped(a: string, b: string, c: string)
    ensures var h := a + b + c;
      && h[..|a|] == a && h[|a|..|h| - |c|] == b && h[|h| - |c|..] == c
      && ('\n' !in h <==> '\n' !in a && '\n' !in b && '\n' !in c)
  {
    var h := a + b + c;
    if '\n' in h {
      var i :| 0 <= i < |h| && h[i] == '\n';
      if i < |a| { assert a[i] == '\n'; }
      else if i < |a| + |b| { assert b[i - |a|] == '\n'; }
      else { assert c[i - |a| - |b|] == '\n'; }
    }
  }

  /** The message handed to the delivery provider. */
  datatype Email = Email(from: Value, to: string, subject: string, html: string)

  function ComposeEmail(from: Value, to: string, text: string): (e: Email)
    ensures e.from == from && e.to == to
    ensures e.subject == Subject
    ensures e.html == RenderHtml(text)
  {
    Email(from, to, Subject, RenderHtml(text))
  }

  /** The provider's `{ data, error }` answer; `data` is the sent message's id. */
  datatype ProviderAnswer = ProviderAnswer(data: Option<string>, error: Option<string>)

  /**
   * A reported error (an object, hence truthy) is thrown as an `Error`
   * carrying its message; otherwise `data` is returned as it is.
   */
  function Deliver(answer: ProviderAnswer): (r: Result<Option<string>, string>)
    ensures r.Err? <==> answer.error.Some?
    ensures r.Err? ==> r.error == answer.error.value
    ensures r.Ok? ==> r.value == answer.data
  {
    if answer.error.Some? then Err(answer.error.value) else Ok(answer.data)
  }
}
