/**
 * Quoting of command-line words. `Quote` stands in for Go's `%q` verb: it
 * wraps a string in double quotes and backslash-escapes `"` and `\`.
 * `ParseQuoted` reads such a word back: it undoes the backslash escapes and
 * stops at the closing quote. The lemmas below show that `Quote` loses nothing
 * for this reader. It performs no shell expansion of `$` or backticks.
 */
module Quoting {
  import opened Results
  import opened Text
  import opened Seqs

  function Escape(s: string): string {
    if s == [] then []
    else (if s[0] == '"' || s[0] == '\\' then ['\\', s[0]] else [s[0]]) + Escape(s[1..])
  }

  /** `%q` of `s`: a double-quoted word. */
  function Quote(s: string): (q: string)
    ensures |q| >= 2 && q[0] == '"' && q[|q| - 1] == '"'
  {
    "\"" + Escape(s) + "\""
  }

  /**
   * Reads the inside of a double-quoted word up to its closing quote,
   * undoing backslash escapes; gives the value and the text after the quote.
   */
  function ParseBody(s: string): (r: Option<(string, string)>)
    ensures r.Some? ==> |r.value.1| < |s|
  {
    if s == [] then None
    else if s[0] == '"' then Some(([], s[1..]))
    else if s[0] == '\\' then
      if |s| < 2 then None
      else
        match ParseBody(s[2..])
        case None => None
        case Some((v, rest)) => Some(([s[1]] + v, rest))
    else
      match ParseBody(s[1..])
      case None => None
      case Some((v, rest)) => Some(([s[0]] + v, rest))
  }

  /** Reads one double-quoted word at the start of `s`. */
  function ParseQuoted(s: string): (r: Option<(string, string)>)
    ensures r.Some? ==> |r.value.1| < |s|
  {
    if s == [] || s[0] != '"' then None else ParseBody(s[1..])
  }

  lemma {:induction false} ParseBodyEscape(v: string, t: string)
    ensures ParseBody(Escape(v) + "\"" + t) == Some((v, t))
  {
    if v == [] {
      assert Escape(v) + "\"" + t == "\"" + t;
    } else {
      ParseBodyEscape(v[1..], t);
      var e := if v[0] == '"' || v[0] == '\\' then ['\\', v[0]] else [v[0]];
      assert Escape(v) + "\"" + t == e + (Escape(v[1..]) + "\"" + t);
      assert [v[0]] + v[1..] == v;
    }
  }

  /** `s` holds neither a double quote nor a backslash, so `%q` escapes nothing in it. */
  predicate Plain(s: string) {
    '"' !in s && '\\' !in s
  }

  /** Escaping leaves a plain string as it is and lengthens any other. */
  lemma {:induction false} EscapePlain(s: string)
    ensures Plain(s) ==> Escape(s) == s
    ensures !Plain(s) ==> |Escape(s)| > |s|
    ensures |Escape(s)| >= |s|
  {
    if s != [] {
      EscapePlain(s[1..]);
      assert s == [s[0]] + s[1..];
    }
  }

  /** Wrapping `s` in double quotes as it is gives its `%q` exactly when `s` is plain. */
  lemma QuotePlain(s: string)
    ensures "\"" + s + "\"" == Quote(s) <==> Plain(s)
  {
    EscapePlain(s);
    if !Plain(s) {
      assert |"\"" + s + "\""| < |Quote(s)|;
    }
  }

  /** A concatenation is plain exactly when both parts are. */
  lemma PlainAppend(a: string, b: string)
    ensures Plain(a + b) <==> Plain(a) && Plain(b)
  {
    assert forall c :: c in a + b <==> c in a || c in b;
  }

  /** A quoted word reads back as the original string, leaving what follows it. */
  lemma QuoteRoundTrip(v: string, t: string)
    ensures ParseQuoted(Quote(v) + t) == Some((v, t))
  {
    ParseBodyEscape(v, t);
    assert (Quote(v) + t)[1..] == Escape(v) + "\"" + t;
  }

  // ---------------------------------------------------------------------------
  // Space-separated lists of quoted words

  function QuoteAll(words: seq<string>): (qs: seq<string>)
    ensures |qs| == |words|
    ensures forall i :: 0 <= i < |words| ==> qs[i] == Quote(words[i])
  {
    if words == [] then [] else [Quote(words[0])] + QuoteAll(words[1..])
  }

  /** Reads a space-separated list of quoted words. */
  function ParseQuotedList(s: string): Option<seq<string>>
    decreases |s|
  {
    if s == [] then Some([])
    else
      match ParseQuoted(s)
      case None => None
      case Some((v, rest)) =>
        if rest == [] then Some([v])
        else if rest[0] != ' ' then None
        else
          match ParseQuotedList(rest[1..])
          case None => None
          case Some(vs) => Some([v] + vs)
  }

  /** Joining quoted words with spaces loses nothing: the words read back in order. */
  lemma {:induction false} QuotedListRoundTrip(words: seq<string>)
    ensures ParseQuotedList(Join(QuoteAll(words), " ")) == Some(words)
  {
    var qs := QuoteAll(words);
    if |words| == 1 {
      QuoteRoundTrip(words[0], []);
      AppendEmpty(Quote(words[0]));
      assert words == [words[0]];
    } else if |words| > 1 {
      var tail := Join(qs[1..], " ");
      QuotedListRoundTrip(words[1..]);
      assert QuoteAll(words[1..]) == qs[1..];
      QuoteRoundTrip(words[0], " " + tail);
      assert Join(qs, " ") == Quote(words[0]) + " " + tail;
      AppendAssoc3(Quote(words[0]), " ", tail);
      ConsRest(' ', tail);
      FirstAndRest(words);
    }
  }

  // ---------------------------------------------------------------------------
  // Options of the form `--name "value" `

  /** One `--name %q ` option, with its trailing space. */
  function RenderOption(name: string, value: string): string {
    "--" + name + " " + Quote(value) + " "
  }

  function RenderOptions(opts: seq<(string, string)>): string {
    if opts == [] then [] else RenderOption(opts[0].0, opts[0].1) + RenderOptions(opts[1..])
  }

  /** Reads back a run of `--name "value" ` options. */
  function ParseOptions(s: string): Option<seq<(string, string)>>
    decreases |s|
  {
    if s == [] then Some([])
    else if |s| < 2 || s[..2] != "--" then None
    else
      var name := Word(s[2..]);
      var after := s[2 + |name|..];
      if after == [] || after[0] != ' ' then None
      else
        match ParseQuoted(after[1..])
        case None => None
        case Some((v, rest)) =>
          if rest == [] || rest[0] != ' ' then None
          else
            match ParseOptions(rest[1..])
            case None => None
            case Some(more) => Some([(name, v)] + more)
  }

  lemma {:induction false} WordBeforeSpace(name: string, t: string)
    requires NoSpace(name)
    ensures Word(name + (" " + t)) == name
  {
    if name != [] {
      WordBeforeSpace(name[1..], t);
      DropFirst(name, " " + t);
      FirstAndRest(name);
    }
  }

  lemma ParseOneOption(name: string, value: string, more: string)
    requires NoSpace(name)
    ensures ParseOptions(RenderOption(name, value) + more)
         == match ParseOptions(more)
            case None => None
            case Some(m) => Some([(name, value)] + m)
  {
    var s := RenderOption(name, value) + more;
    var rest := Quote(value) + (" " + more);
    var t := name + (" " + rest);
    Regroup6("--", name, " ", Quote(value), " ", more);
    assert s == "--" + t;
    PrefixDrop("--", t);
    WordBeforeSpace(name, rest);
    PrefixDrop(name, " " + rest);
    DropDrop(s, 2, |name|);
    var after := s[2 + |name|..];
    assert after == " " + rest;
    ConsRest(' ', rest);
    QuoteRoundTrip(value, " " + more);
    ConsRest(' ', more);
  }

  /** Rendered options read back as the same names and values, in the same order. */
  lemma {:induction false} OptionsRoundTrip(opts: seq<(string, string)>)
    requires forall i :: 0 <= i < |opts| ==> NoSpace(opts[i].0)
    ensures ParseOptions(RenderOptions(opts)) == Some(opts)
  {
    if opts != [] {
      OptionsRoundTrip(opts[1..]);
      ParseOneOption(opts[0].0, opts[0].1, RenderOptions(opts[1..]));
      assert [opts[0]] + opts[1..] == opts;
    }
  }
}
