/** `normalize_name` (lossy sanitiser) and `assert_valid_name` (validator). */
module Names {
  import opened Wrappers
  import opened Errors

  const MaxNameLength: nat := 64

  /** The regular-expression class `[a-zA-Z0-9_-]`. */
  predicate IsNameChar(c: char) {
    'a' <= c <= 'z' || 'A' <= c <= 'Z' || '0' <= c <= '9' || c == '_' || c == '-'
  }

  predicate AllNameChars(s: string) {
    forall i :: 0 <= i < |s| ==> IsNameChar(s[i])
  }

  function Sanitize(c: char): char {
    if IsNameChar(c) then c else '_'
  }

  /** `re.sub(r"[^a-zA-Z0-9_-]", "_", s)`. */
  function ReplaceInvalid(s: string): (r: string)
    ensures |r| == |s|
    ensures AllNameChars(r)
    ensures forall i :: 0 <= i < |s| && IsNameChar(s[i]) ==> r[i] == s[i]
    ensures forall i :: 0 <= i < |s| && !IsNameChar(s[i]) ==> r[i] == '_'
  {
    if s == [] then [] else [Sanitize(s[0])] + ReplaceInvalid(s[1..])
  }

  /** `normalize_name`: never fails; the substitution, then the slice `[:64]`. */
  function NormalizeName(name: string): (r: string)
    ensures |r| == if |name| <= MaxNameLength then |name| else MaxNameLength
    ensures AllNameChars(r)
    ensures forall i :: 0 <= i < |r| && IsNameChar(name[i]) ==> r[i] == name[i]
    ensures forall i :: 0 <= i < |r| && !IsNameChar(name[i]) ==> r[i] == '_'
  {
    var s := ReplaceInvalid(name);
    if |s| <= MaxNameLength then s else s[..MaxNameLength]
  }

  /** Normalising twice is normalising once. */
  lemma NormalizeIdempotent(name: string)
    ensures NormalizeName(NormalizeName(name)) == NormalizeName(name)
  {
    var r := NormalizeName(name);
    var rr := NormalizeName(r);
    assert |rr| == |r|;
    forall i | 0 <= i < |r| ensures rr[i] == r[i] {
      assert IsNameChar(r[i]);
    }
  }

  /** The strings that normalisation leaves alone are exactly the short well-formed ones. */
  lemma NormalizeFixedPoints(name: string)
    ensures NormalizeName(name) == name <==> AllNameChars(name) && |name| <= MaxNameLength
  {
    if AllNameChars(name) && |name| <= MaxNameLength {
      var r := NormalizeName(name);
      forall i | 0 <= i < |r| ensures r[i] == name[i] {
        assert IsNameChar(name[i]);
      }
    }
  }

  /**
    * The pattern `^[a-zA-Z0-9_-]+$` under `re.match`: one or more name characters,
    * where `$` also matches just before a single newline that ends the string.
    */
  predicate MatchesNamePattern(name: string) {
    || (|name| > 0 && AllNameChars(name))
    || (|name| > 1 && name[|name| - 1] == '\n' && AllNameChars(name[..|name| - 1]))
  }

  /** `assert_valid_name`: returns its argument unchanged, or raises. */
  function AssertValidName(name: string): (r: Result<string, ClientError>)
    ensures r.Ok? ==> r.value == name
    ensures r.Ok? <==> MatchesNamePattern(name) && |name| <= MaxNameLength
    ensures r.Err? ==> r.error == InvalidNameChars(name) || r.error == NameTooLong(name)
    ensures r.Err? ==> (r.error == InvalidNameChars(name) <==> !MatchesNamePattern(name))
  {
    if !MatchesNamePattern(name) then Err(InvalidNameChars(name))
    else if |name| > MaxNameLength then Err(NameTooLong(name))
    else Ok(name)
  }

  /** Without a trailing newline, a name passes exactly when it matches `[a-zA-Z0-9_-]{1,64}`. */
  lemma ValidNameExactly(name: string)
    requires |name| == 0 || name[|name| - 1] != '\n'
    ensures AssertValidName(name).Ok? <==> 0 < |name| <= MaxNameLength && AllNameChars(name)
  {
  }

  /** The quirk of `$`: one trailing newline after a valid name of at most 63 characters passes. */
  lemma TrailingNewlineAccepted(name: string)
    requires 0 < |name| < MaxNameLength && AllNameChars(name)
    ensures AssertValidName(name + "\n") == Ok(name + "\n")
  {
    assert (name + "\n")[..|name|] == name;
  }

  /** A name the validator accepts (without the newline quirk) is left alone by normalisation. */
  lemma AcceptedNamesAreNormal(name: string)
    requires AssertValidName(name).Ok?
    requires name[|name| - 1] != '\n'
    ensures NormalizeName(name) == name
  {
    NormalizeFixedPoints(name);
  }

  /** A normalised non-empty name always passes validation. */
  lemma NormalizedNamesValidate(name: string)
    requires name != []
    ensures AssertValidName(NormalizeName(name)) == Ok(NormalizeName(name))
  {
  }
}
