/** The stock domain's toner types: a validated name, the toner entity and
    the requests and errors of the create and delete use cases. */
module TonerDomain {
  import opened Common

  /** A character with the Unicode `White_Space` property, the set
      `str::trim` removes. */
  predicate IsWhitespace(c: char) {
    ('\t' <= c <= '\r') || c == ' ' || c == '\U{85}' || c == '\U{A0}' || c == '\U{1680}' ||
    ('\U{2000}' <= c <= '\U{200A}') || c == '\U{2028}' || c == '\U{2029}' ||
    c == '\U{202F}' || c == '\U{205F}' || c == '\U{3000}'
  }

  predicate AllWhitespace(s: string) {
    forall i | 0 <= i < |s| :: IsWhitespace(s[i])
  }

  /** Neither end of `s` is whitespace (vacuously so for the empty string). */
  predicate IsTrimmed(s: string) {
    s == "" || (!IsWhitespace(s[0]) && !IsWhitespace(s[|s| - 1]))
  }

  /** `trim_start`: drop the leading whitespace. */
  function TrimStart(s: string): (r: string)
    ensures |r| <= |s| && r == s[|s| - |r|..]
    ensures AllWhitespace(s[..|s| - |r|])
    ensures r == "" || !IsWhitespace(r[0])
  {
    if s == "" || !IsWhitespace(s[0]) then s else TrimStart(s[1..])
  }

  /** `trim_end`: drop the trailing whitespace. */
  function TrimEnd(s: string): (r: string)
    ensures |r| <= |s| && r == s[..|r|]
    ensures AllWhitespace(s[|r|..])
    ensures r == "" || !IsWhitespace(r[|r| - 1])
  {
    if s == "" || !IsWhitespace(s[|s| - 1]) then s else TrimEnd(s[..|s| - 1])
  }

  /** `str::trim`: drop whitespace at both ends, leaving none at either
      end of the result. */
  function Trim(s: string): (r: string)
    ensures IsTrimmed(r)
  {
    var t := TrimStart(s);
    var r := TrimEnd(t);
    assert r != "" ==> r[0] == t[0];
    r
  }

  /** Trimming leaves a trimmed string that is empty exactly when the input
      was all whitespace, and keeps every non-whitespace character. */
  lemma TrimShape(s: string)
    ensures IsTrimmed(Trim(s))
    ensures Trim(s) == "" <==> AllWhitespace(s)
    ensures exists a, b :: 0 <= a <= b <= |s| && Trim(s) == s[a..b] &&
                           AllWhitespace(s[..a]) && AllWhitespace(s[b..])
  {
    var t := TrimStart(s);
    var r := TrimEnd(t);
    var a := |s| - |t|;
    var b := a + |r|;
    assert s[a..b] == r;
    assert s[b..] == t[|r|..];
    if r == "" {
      assert s == s[..a] + t;
    }
    if r != "" {
      assert r[0] == t[0];
    }
    assert IsTrimmed(r);
  }

  /** A string whose ends are not whitespace is its own trim. */
  lemma TrimOfTrimmed(s: string)
    requires IsTrimmed(s)
    ensures Trim(s) == s
  {
  }

  /** Trimming twice is trimming once. */
  lemma TrimIdempotent(s: string)
    ensures Trim(Trim(s)) == Trim(s)
  {
    TrimShape(s);
    TrimOfTrimmed(Trim(s));
  }

  /** The text a `TonerName` can hold: trimmed and not empty. */
  type NameText = s: string | s != "" && IsTrimmed(s) witness "toner"

  /** `TonerName`: only `NewTonerName` builds one from raw text. */
  datatype TonerName = TonerName(text: NameText)

  /** The error of an empty or all-whitespace name. */
  datatype TonerNameEmptyError = TonerNameEmptyError

  /** `TonerName::new`: trim, then refuse the empty result. */
  function NewTonerName(raw: string): (r: Result<TonerName, TonerNameEmptyError>)
    ensures r.Err? <==> AllWhitespace(raw)
    ensures r.Ok? ==> r.value.text == Trim(raw)
  {
    TrimShape(raw);
    var trimmed := Trim(raw);
    if trimmed == "" then Err(TonerNameEmptyError) else Ok(TonerName(trimmed))
  }

  /** `Display for TonerName`: the stored text. */
  function Display(name: TonerName): (r: string)
    ensures r != "" && IsTrimmed(r)
  {
    name.text
  }

  /** Building a name from its displayed text gives the same name back. */
  lemma DisplayRoundTrip(name: TonerName)
    ensures NewTonerName(Display(name)) == Ok(name)
  {
    TrimOfTrimmed(name.text);
  }

  /** Accepted names are unchanged by a second pass through the constructor. */
  lemma NewTonerNameIdempotent(raw: string)
    requires NewTonerName(raw).Ok?
    ensures NewTonerName(Display(NewTonerName(raw).value)) == NewTonerName(raw)
  {
    DisplayRoundTrip(NewTonerName(raw).value);
  }

  /** `Toner`: an id and a validated name; `new`, `id()` and `name()` are
      the constructor and its destructors. */
  datatype Toner = Toner(id: Uuid, name: TonerName)

  /** `CreateTonerRequest`: `new` and `name()` are the constructor and its
      destructor. */
  datatype CreateTonerRequest = CreateTonerRequest(name: TonerName)

  /** `CreateTonerError`: the name is taken, or something else failed (the
      cause is not modelled). */
  datatype CreateTonerError = Duplicate(name: TonerName) | CreateUnknown

  /** `DeleteTonerRequest`: the id of the toner to remove. */
  datatype DeleteTonerRequest = DeleteTonerRequest(id: Uuid)

  /** `DeleteTonerError`: no such toner, or something else failed. */
  datatype DeleteTonerError = NotFound(id: Uuid) | DeleteUnknown
}
