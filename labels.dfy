/**
 * The classifier adapter of `generate_classification`: the external model
 * call is an oracle that either yields text or raises; the text is trimmed
 * and one outer pair of square brackets is removed; a raised exception
 * becomes an error-marker label. The adapter catches every `Exception`, so
 * none escapes it.
 */
module Labels {

  /** Which of the two taxonomies a call classifies into. */
  datatype Kind = Problem | Solution

  /** One call of the classifier: the record's text, the raw category-definition block, the taxonomy. */
  datatype Call = Call(text: string, definition: string, kind: Kind)

  /** What the external model call does: return generated text, or raise an exception with a message. */
  datatype Response = Text(body: string) | Raised(message: string)

  /** The prefix of the label stored when the model call raises. */
  const ErrorPrefix: string := "分類エラー: "

  /** Python's `str.isspace()`: the characters `str.strip()` removes. */
  predicate IsSpace(c: char) {
    var k := c as int;
    (0x09 <= k <= 0x0D) || (0x1C <= k <= 0x20) || k == 0x85 || k == 0xA0 ||
    k == 0x1680 || (0x2000 <= k <= 0x200A) || k == 0x2028 || k == 0x2029 ||
    k == 0x202F || k == 0x205F || k == 0x3000
  }

  predicate AllSpace(s: string) {
    forall i :: 0 <= i < |s| ==> IsSpace(s[i])
  }

  /** Neither end of `s` is a whitespace character. */
  predicate Bare(s: string) {
    s == [] || (!IsSpace(s[0]) && !IsSpace(s[|s| - 1]))
  }

  /** `s` is `r` with whitespace added on either side. */
  ghost predicate Padded(s: string, r: string) {
    exists a, b :: AllSpace(a) && AllSpace(b) && s == a + r + b
  }

  /** `str.lstrip()`: `s` without its leading whitespace. */
  function TrimStart(s: string): (r: string)
    ensures |r| <= |s| && (r == [] || !IsSpace(r[0]))
  {
    if s != [] && IsSpace(s[0]) then TrimStart(s[1..]) else s
  }

  /** `str.rstrip()`: `s` without its trailing whitespace. */
  function TrimEnd(s: string): (r: string)
    ensures |r| <= |s| && (r == [] || !IsSpace(r[|r| - 1]))
  {
    if s != [] && IsSpace(s[|s| - 1]) then TrimEnd(s[..|s| - 1]) else s
  }

  /** `TrimStart` removes a whitespace prefix and nothing else. */
  lemma {:induction false} TrimStartSplits(s: string)
    ensures var k := |s| - |TrimStart(s)|; s[k..] == TrimStart(s) && AllSpace(s[..k])
  {
    if s != [] && IsSpace(s[0]) {
      TrimStartSplits(s[1..]);
      var k := |s| - |TrimStart(s)|;
      assert s[k..] == s[1..][k - 1..];
      assert s[..k] == [s[0]] + s[1..][..k - 1];
    }
  }

  /** `TrimEnd` removes a whitespace suffix and nothing else. */
  lemma {:induction false} TrimEndSplits(s: string)
    ensures var k := |TrimEnd(s)|; s[..k] == TrimEnd(s) && AllSpace(s[k..])
  {
    if s != [] && IsSpace(s[|s| - 1]) {
      var s' := s[..|s| - 1];
      TrimEndSplits(s');
      var k := |TrimEnd(s)|;
      assert s[..k] == s'[..k];
      assert s[k..] == s'[k..] + [s[|s| - 1]];
    }
  }

  /** Python's `str.strip()` with no argument. */
  function Strip(s: string): (r: string)
    ensures Bare(r)
  {
    var t := TrimStart(s);
    TrimEndSplits(t);
    TrimEnd(t)
  }

  /** What `Strip` removes is whitespace, from the two ends only. */
  lemma StripPads(s: string)
    ensures Padded(s, Strip(s))
  {
    var t := TrimStart(s);
    var r := TrimEnd(t);
    TrimStartSplits(s);
    TrimEndSplits(t);
    assert s == s[..|s| - |t|] + r + t[|r|..];
  }

  lemma {:induction false} TrimStartSkips(a: string, t: string)
    requires AllSpace(a) && (t == [] || !IsSpace(t[0]))
    ensures TrimStart(a + t) == t
  {
    if a != [] {
      assert (a + t)[1..] == a[1..] + t;
      TrimStartSkips(a[1..], t);
    }
  }

  lemma {:induction false} TrimEndSkips(t: string, b: string)
    requires AllSpace(b) && (t == [] || !IsSpace(t[|t| - 1]))
    ensures TrimEnd(t + b) == t
  {
    if b != [] {
      assert (t + b)[..|t + b| - 1] == t + b[..|b| - 1];
      TrimEndSkips(t, b[..|b| - 1]);
    }
  }

  /** Whitespace around a bare string is exactly what `Strip` removes. */
  lemma StripOfPadded(a: string, r: string, b: string)
    requires AllSpace(a) && AllSpace(b) && Bare(r)
    ensures Strip(a + r + b) == r
  {
    if r == [] {
      assert a + r + b == (a + b) + [];
      TrimStartSkips(a + b, []);
    } else {
      assert a + r + b == a + (r + b);
      TrimStartSkips(a, r + b);
      TrimEndSkips(r, b);
    }
  }

  /**
   * `Strip(s)` is the one string without whitespace at either end that
   * `s` is a whitespace-padded copy of.
   */
  lemma StripUnique(s: string, r: string)
    ensures r == Strip(s) <==> Bare(r) && Padded(s, r)
  {
    StripPads(s);
    if Bare(r) && Padded(s, r) {
      var a, b :| AllSpace(a) && AllSpace(b) && s == a + r + b;
      StripOfPadded(a, r, b);
    }
  }

  /** Stripping an already stripped string changes nothing. */
  lemma StripIdempotent(s: string)
    ensures Strip(Strip(s)) == Strip(s)
  {
    var r := Strip(s);
    assert r == [] + r + [];
    StripOfPadded([], r, []);
  }

  /** `startswith('[') and endswith(']')`. */
  predicate Bracketed(t: string) {
    |t| >= 1 && t[0] == '[' && t[|t| - 1] == ']'
  }

  /**
   * The label made from the model's text: trimmed, then with exactly one
   * outer `[` … `]` pair removed when both are there. Inner whitespace is
   * kept.
   */
  function Normalise(raw: string): (answer: string)
    ensures Bracketed(Strip(raw)) ==> Strip(raw) == "[" + answer + "]"
    ensures !Bracketed(Strip(raw)) ==> answer == Strip(raw)
  {
    var t := Strip(raw);
    if Bracketed(t) then t[1..|t| - 1] else t
  }

  /** Padding the model's text with whitespace does not change the label. */
  lemma NormaliseIgnoresPadding(a: string, t: string, b: string)
    requires AllSpace(a) && AllSpace(b)
    ensures Normalise(a + t + b) == Normalise(t)
  {
    var r := Strip(t);
    StripPads(t);
    var a', b' :| AllSpace(a') && AllSpace(b') && t == a' + r + b';
    assert a + t + b == (a + a') + r + (b' + b);
    assert AllSpace(a + a') && AllSpace(b' + b);
    StripOfPadded(a + a', r, b' + b);
  }

  /**
   * A bracketed answer loses exactly one pair of brackets, whatever is
   * inside: `[]` gives the empty label and `[[x]]` gives `[x]`.
   */
  lemma NormaliseUnwrapsOnce(x: string)
    ensures Normalise("[" + x + "]") == x
  {
    var t := "[" + x + "]";
    assert t == [] + t + [];
    StripOfPadded([], t, []);
  }

  /** A text that is already bare and not bracketed is its own label. */
  lemma NormaliseKeepsBare(t: string)
    requires Bare(t) && !Bracketed(t)
    ensures Normalise(t) == t
  {
    assert t == [] + t + [];
    StripOfPadded([], t, []);
  }

  /** The failure description carried by an error-marker label, if the label is one. */
  function ErrorMessage(answer: string): (m: Option<string>)
    ensures m.Some? ==> answer == ErrorPrefix + m.value
    ensures m.None? ==> !(|ErrorPrefix| <= |answer| && answer[..|ErrorPrefix|] == ErrorPrefix)
  {
    if |ErrorPrefix| <= |answer| && answer[..|ErrorPrefix|] == ErrorPrefix
    then Some(answer[|ErrorPrefix|..])
    else None
  }

  datatype Option<T> = None | Some(value: T)

  /** The stored label for one model call; a raised `Exception` is stored as an error marker. */
  function Resolve(resp: Response): (answer: string)
    ensures resp.Text? ==> answer == Normalise(resp.body)
    ensures resp.Raised? ==> ErrorMessage(answer) == Some(resp.message)
  {
    match resp
    case Text(body) => Normalise(body)
    case Raised(message) =>
      var answer := ErrorPrefix + message;
      assert answer[..|ErrorPrefix|] == ErrorPrefix && answer[|ErrorPrefix|..] == message;
      answer
  }

  /**
   * The marker is not reserved: a model answer that happens to begin with
   * the prefix is stored exactly like a raised exception.
   */
  lemma ErrorMarkerNotReserved(message: string)
    ensures Resolve(Text("[" + ErrorPrefix + message + "]")) == Resolve(Raised(message))
  {
    NormaliseUnwrapsOnce(ErrorPrefix + message);
    assert "[" + ErrorPrefix + message + "]" == "[" + (ErrorPrefix + message) + "]";
  }

  /** A successful call may still store the empty label (answer `[]` or all whitespace). */
  lemma EmptyLabelPossible(ws: string)
    requires AllSpace(ws)
    ensures Resolve(Text(ws)) == ""
    ensures Resolve(Text("[]")) == ""
  {
    assert ws == ws + [] + [];
    StripOfPadded(ws, [], []);
    NormaliseUnwrapsOnce("");
    assert "[" + "" + "]" == "[]";
  }
}
