/** SIREN and SIRET identifiers (utils/validators.py): an identifier is
    normalised by removing every space, hyphen and period, and is valid when
    what remains has the right length (9 or 14) and consists of digits only. */
module Validators {
  import opened PyBuiltins

  datatype IdKind = Siren | Siret

  /** The number of digits of each identifier. */
  function Width(kind: IdKind): nat {
    match kind
    case Siren => 9
    case Siret => 14
  }

  /** Why an identifier was refused; `WrongLength` carries the length that the
      error message reports. */
  datatype Reason = IsNone | WrongLength(found: nat) | NotDigits

  /** `InvalidSirenError` (kind Siren) or `InvalidSiretError` (kind Siret). */
  datatype InvalidId = InvalidId(kind: IdKind, reason: Reason)

  datatype Result<+T> = Ok(value: T) | Err(error: InvalidId)

  predicate IsSeparator(c: char) {
    c == ' ' || c == '-' || c == '.'
  }

  /** `s.replace(c, "")`. */
  function Remove(s: string, c: char): (r: string)
    ensures forall x :: x in r ==> x in s && x != c
  {
    if |s| == 0 then "" else (if s[0] == c then "" else [s[0]]) + Remove(s[1..], c)
  }

  /** The replace chain of validate_siren and validate_siret. */
  function Normalize(s: string): (r: string)
    ensures forall i :: 0 <= i < |r| ==> !IsSeparator(r[i])
  {
    var r := Remove(Remove(Remove(s, ' '), '-'), '.');
    assert forall i :: 0 <= i < |r| ==> r[i] in r;
    r
  }

  /** A one-pass reading of the same normalisation: keep, in order, every
      character that is not a separator. */
  function DropSeparators(s: string): string {
    if |s| == 0 then "" else (if IsSeparator(s[0]) then "" else [s[0]]) + DropSeparators(s[1..])
  }

  lemma {:induction false} RemoveAppend(a: string, b: string, c: char)
    ensures Remove(a + b, c) == Remove(a, c) + Remove(b, c)
  {
    if |a| > 0 {
      assert (a + b)[1..] == a[1..] + b;
      RemoveAppend(a[1..], b, c);
    } else {
      assert a + b == b;
    }
  }

  lemma {:induction false} RemoveAbsent(s: string, c: char)
    requires c !in s
    ensures Remove(s, c) == s
  {
    if |s| > 0 {
      assert c !in s[1..];
      RemoveAbsent(s[1..], c);
      assert [s[0]] + s[1..] == s;
    }
  }

  /** The three chained `replace` calls drop exactly the separators. */
  lemma {:induction false} NormalizeDropsSeparators(s: string)
    ensures Normalize(s) == DropSeparators(s)
  {
    if |s| > 0 {
      var head, tail := [s[0]], s[1..];
      assert s == head + tail;
      RemoveAppend(head, tail, ' ');
      var a1, b1 := Remove(head, ' '), Remove(tail, ' ');
      RemoveAppend(a1, b1, '-');
      var a2, b2 := Remove(a1, '-'), Remove(b1, '-');
      RemoveAppend(a2, b2, '.');
      NormalizeDropsSeparators(tail);
      assert Remove(a2, '.') == (if IsSeparator(s[0]) then "" else [s[0]]);
    }
  }

  lemma {:induction false} DropSeparatorsAppend(a: string, b: string)
    ensures DropSeparators(a + b) == DropSeparators(a) + DropSeparators(b)
  {
    if |a| > 0 {
      assert (a + b)[1..] == a[1..] + b;
      DropSeparatorsAppend(a[1..], b);
    } else {
      assert a + b == b;
    }
  }

  /** Normalising a string that holds no separator leaves it unchanged. */
  lemma NormalizeUnchanged(s: string)
    requires forall i :: 0 <= i < |s| ==> !IsSeparator(s[i])
    ensures Normalize(s) == s
  {
    RemoveAbsent(s, ' ');
    RemoveAbsent(s, '-');
    RemoveAbsent(s, '.');
  }

  /** The common body of validate_siren and validate_siret. */
  function Validate(kind: IdKind, id: Option<string>, allowNone: bool): (r: Result<Option<string>>)
    ensures id.None? ==> r == if allowNone then Ok(None) else Err(InvalidId(kind, IsNone))
    ensures id.Some? ==> (r.Ok? <==> |Normalize(id.value)| == Width(kind) && IsDigits(Normalize(id.value)))
    ensures id.Some? && r.Ok? ==> r.value == Some(Normalize(id.value))
    ensures r.Err? ==> r.error.kind == kind
  {
    match id
    case None => if allowNone then Ok(None) else Err(InvalidId(kind, IsNone))
    case Some(s) =>
      var n := Normalize(s);
      if |n| != Width(kind) then Err(InvalidId(kind, WrongLength(|n|)))
      else if !IsDigits(n) then Err(InvalidId(kind, NotDigits))
      else Ok(Some(n))
  }

  /** `validate_siren(siren, allow_none)`. */
  function ValidateSiren(siren: Option<string>, allowNone: bool): (r: Result<Option<string>>)
    ensures r.Err? ==> r.error.kind == Siren
    ensures r.Ok? && r.value.Some? ==> |r.value.value| == 9 && IsDigits(r.value.value)
  {
    Validate(Siren, siren, allowNone)
  }

  /** `validate_siret(siret, allow_none)`. */
  function ValidateSiret(siret: Option<string>, allowNone: bool): (r: Result<Option<string>>)
    ensures r.Err? ==> r.error.kind == Siret
    ensures r.Ok? && r.value.Some? ==> |r.value.value| == 14 && IsDigits(r.value.value)
  {
    Validate(Siret, siret, allowNone)
  }

  /** `extract_siren_from_siret(siret)`: the first nine digits of the
      normalised SIRET. */
  function ExtractSirenFromSiret(siret: Option<string>): (r: Result<string>)
    ensures r.Ok? <==> siret.Some? && |Normalize(siret.value)| == 14 && IsDigits(Normalize(siret.value))
    ensures r.Ok? ==> r.value == Normalize(siret.value)[..9]
    ensures r.Err? ==> r.error.kind == Siret
  {
    match ValidateSiret(siret, false)
    case Ok(v) => Ok(v.value[..9])
    case Err(e) => Err(e)
  }

  /** `is_valid_siren(siren)`. */
  function IsValidSiren(siren: Option<string>): (b: bool)
    ensures b <==> siren.Some? && |Normalize(siren.value)| == 9 && IsDigits(Normalize(siren.value))
  {
    ValidateSiren(siren, false).Ok?
  }

  /** `is_valid_siret(siret)`. */
  function IsValidSiret(siret: Option<string>): (b: bool)
    ensures b <==> siret.Some? && |Normalize(siret.value)| == 14 && IsDigits(Normalize(siret.value))
  {
    ValidateSiret(siret, false).Ok?
  }

  // ---------------------------------------------------------------------------
  // Properties
  // ---------------------------------------------------------------------------

  /** A validated identifier has the right width, only digits and no
      separator, and validating it again returns it unchanged. */
  lemma ValidatedIsCanonical(kind: IdKind, id: Option<string>, allowNone: bool, again: bool)
    requires Validate(kind, id, allowNone).Ok? && Validate(kind, id, allowNone).value.Some?
    ensures var v := Validate(kind, id, allowNone).value.value;
      && |v| == Width(kind)
      && IsDigits(v)
      && (forall i :: 0 <= i < |v| ==> !IsSeparator(v[i]))
      && Validate(kind, Some(v), again) == Ok(Some(v))
  {
    NormalizeUnchanged(Normalize(id.value));
  }

  /** The length is checked before the digits: a string of the wrong length is
      refused for its length even when it also holds non-digits. */
  lemma LengthCheckedFirst(kind: IdKind, s: string, allowNone: bool)
    requires |Normalize(s)| != Width(kind)
    ensures Validate(kind, Some(s), allowNone) == Err(InvalidId(kind, WrongLength(|Normalize(s)|)))
  {
  }

  /** A string of the right length with a non-digit is refused for its digits. */
  lemma DigitsCheckedSecond(kind: IdKind, s: string, allowNone: bool)
    requires |Normalize(s)| == Width(kind) && !IsDigits(Normalize(s))
    ensures Validate(kind, Some(s), allowNone) == Err(InvalidId(kind, NotDigits))
  {
  }

  /** Every string of exactly nine ASCII digits is a valid SIREN, returned as is. */
  lemma DigitStringIsValidSiren(s: string)
    requires |s| == 9 && IsDigits(s)
    ensures ValidateSiren(Some(s), false) == Ok(Some(s))
  {
    NormalizeUnchanged(s);
  }

  /** Inserting a space, hyphen or period anywhere does not change the verdict
      nor the normalised identifier. */
  lemma SeparatorIgnored(kind: IdKind, a: string, c: char, b: string, allowNone: bool)
    requires IsSeparator(c)
    ensures Validate(kind, Some(a + [c] + b), allowNone) == Validate(kind, Some(a + b), allowNone)
  {
    NormalizeDropsSeparators(a + [c] + b);
    NormalizeDropsSeparators(a + b);
    DropSeparatorsAppend(a + [c], b);
    DropSeparatorsAppend(a, [c]);
    DropSeparatorsAppend(a, b);
    assert [c][1..] == [];
    assert DropSeparators([c]) == "";
    assert Normalize(a + [c] + b) == Normalize(a + b);
  }

  /** The SIREN taken from a valid SIRET is itself a valid SIREN. */
  lemma SirenOfSiretIsValid(siret: Option<string>)
    requires ExtractSirenFromSiret(siret).Ok?
    ensures var v := ExtractSirenFromSiret(siret).value;
      ValidateSiren(Some(v), false) == Ok(Some(v)) && IsValidSiren(Some(v))
  {
    var v := ExtractSirenFromSiret(siret).value;
    var n := Normalize(siret.value);
    assert forall i :: 0 <= i < |v| ==> v[i] == n[i];
    NormalizeUnchanged(v);
  }
}
