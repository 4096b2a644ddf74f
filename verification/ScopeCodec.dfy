/** Scopes and the document form of refresh tokens: a scope is stored as one space-separated
    string and read back by splitting at white space. */
module ScopeCodec {
  import opened Entities

  const SUPPORTED: seq<string> := ["openid", "email", "profile", "phone"]

  /** unicode.IsSpace. */
  predicate IsSpace(c: char) {
    || '\t' <= c <= '\r' || c == ' ' || c == '\U{85}' || c == '\U{A0}' || c == '\U{1680}'
    || '\U{2000}' <= c <= '\U{200a}' || c == '\U{2028}' || c == '\U{2029}'
    || c == '\U{202f}' || c == '\U{205f}' || c == '\U{3000}'
  }

  predicate IsWord(s: string) {
    s != "" && forall i :: 0 <= i < |s| ==> !IsSpace(s[i])
  }

  /** Length of the run of non-space characters s starts with. */
  function WordLen(s: string): (n: nat)
    ensures n <= |s|
    ensures forall i :: 0 <= i < n ==> !IsSpace(s[i])
    ensures n < |s| ==> IsSpace(s[n])
  {
    if s == "" || IsSpace(s[0]) then 0 else 1 + WordLen(s[1..])
  }

  /** strings.Fields: the maximal runs of non-space characters. */
  function Fields(s: string): seq<string>
    decreases |s|
  {
    if s == "" then []
    else if IsSpace(s[0]) then Fields(s[1..])
    else [s[..WordLen(s)]] + Fields(s[WordLen(s)..])
  }

  /** strings.Join(values, " "). */
  function Join(words: seq<string>): string {
    if words == [] then ""
    else if |words| == 1 then words[0]
    else words[0] + " " + Join(words[1..])
  }

  lemma {:induction false} WordLenOf(w: string, rest: string)
    requires IsWord(w) && (rest == "" || IsSpace(rest[0]))
    ensures WordLen(w + rest) == |w|
    decreases |w|
  {
    if |w| > 1 {
      assert (w + rest)[1..] == w[1..] + rest;
      WordLenOf(w[1..], rest);
    } else {
      assert (w + rest)[1..] == rest;
    }
  }

  /** Splitting undoes joining, for words without white space. */
  lemma {:induction false} FieldsOfJoin(words: seq<string>)
    requires forall i :: 0 <= i < |words| ==> IsWord(words[i])
    ensures Fields(Join(words)) == words
    decreases |words|
  {
    if words != [] {
      var w, rest := words[0], if |words| == 1 then "" else " " + Join(words[1..]);
      assert Join(words) == w + rest;
      WordLenOf(w, rest);
      assert (w + rest)[..|w|] == w && (w + rest)[|w|..] == rest;
      assert Fields(w + rest) == [w] + Fields(rest) by { assert !IsSpace((w + rest)[0]); }
      FieldsOfJoin(words[1..]);
      if |words| > 1 { assert rest[1..] == Join(words[1..]); }
      assert words == [w] + words[1..];
    }
  }

  lemma SupportedAreWords(s: string)
    requires s in SUPPORTED
    ensures IsWord(s)
  {
    assert s == SUPPORTED[0] || s == SUPPORTED[1] || s == SUPPORTED[2] || s == SUPPORTED[3];
  }

  /** NewScope: at least one value, all of them supported. */
  function NewScope(values: seq<string>): Option<seq<string>> {
    if values == [] || exists i :: 0 <= i < |values| && values[i] !in SUPPORTED then None else Some(values)
  }

  /** Exactly the non-empty lists of the four supported words are scopes. */
  lemma NewScopeExact(values: seq<string>)
    ensures NewScope(values).Some? <==>
      && values != []
      && forall v :: v in values ==> v == "openid" || v == "email" || v == "profile" || v == "phone"
    ensures NewScope(values).Some? ==> NewScope(values).value == values
  {
    forall v ensures v in SUPPORTED <==> v == "openid" || v == "email" || v == "profile" || v == "phone" {
      assert SUPPORTED[0] in SUPPORTED && SUPPORTED[1] in SUPPORTED;
      assert SUPPORTED[2] in SUPPORTED && SUPPORTED[3] in SUPPORTED;
    }
    assert (exists i :: 0 <= i < |values| && values[i] !in SUPPORTED) <==> exists v :: v in values && v !in SUPPORTED;
  }

  /** A scope in the domain: what NewScope lets through. */
  predicate IsScope(values: seq<string>) {
    NewScope(values) == Some(values)
  }

  /** Every scope survives being stored as a string, order and repetitions included. */
  lemma ScopeRoundTrip(values: seq<string>)
    requires IsScope(values)
    ensures NewScope(Fields(Join(values))) == Some(values)
  {
    forall i | 0 <= i < |values| ensures IsWord(values[i]) { SupportedAreWords(values[i]); }
    FieldsOfJoin(values);
  }

  /** Whatever string can be read back denotes the same scope as its normal form. */
  lemma ScopeNormalForm(raw: string)
    requires NewScope(Fields(raw)).Some?
    ensures IsScope(Fields(raw)) && Fields(Join(Fields(raw))) == Fields(raw)
  {
    ScopeRoundTrip(Fields(raw));
  }
}
