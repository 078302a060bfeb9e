/** Read-only accessors over a company record (inpi/companies.py).

    The record is the JSON document fetched for one SIREN; a null document
    stands for a fetch that failed. Every accessor walks a fixed path of keys
    through it with `_get_nested_value`, and several try a list of paths in
    turn. */
module Companies {
  import opened PyBuiltins

  /** A step of a path: a dict key, or a list position. */
  datatype Key = Name(name: string) | Pos(pos: nat)

  /** A path made of dict keys only. */
  function Names(ks: seq<string>): seq<Key> {
    seq(|ks|, i requires 0 <= i < |ks| => Name(ks[i]))
  }

  // ---------------------------------------------------------------------------
  // _get_nested_value
  // ---------------------------------------------------------------------------

  /** One step of the walk: `current.get(key)` on a dict, `current[key]` on a
      list with an in-range position; anything else is a miss (None). */
  function Step(current: Json, key: Key): Json {
    match current
    case JObj(fields) => if key.Name? then GetOr(fields, key.name, JNull) else JNull
    case JArr(items) => if key.Pos? && key.pos < |items| then items[key.pos] else JNull
    case _ => JNull
  }

  /** The value at the end of the path, None on any miss. */
  function Walk(current: Json, keys: seq<Key>): Json
    decreases |keys|
  {
    if |keys| == 0 then current
    else if current.JNull? then JNull
    else Walk(Step(current, keys[0]), keys[1..])
  }

  /** `_get_nested_value(*keys, default=default)`. */
  function NestedValue(output: Json, keys: seq<Key>, default: Json): (r: Outcome<Json>)
    ensures r.Raised? <==> output.JNull?
    ensures r.Raised? ==> r.error == RuntimeError
    ensures !default.JNull? && r.Returned? ==> !r.value.JNull?
    ensures |keys| == 0 && !output.JNull? ==> r == Returned(output)
  {
    if output.JNull? then Raised(RuntimeError)
    else
      var v := Walk(output, keys);
      Returned(if v.JNull? then default else v)
  }

  /** `_get_nested_value`: the loop reassigning `current`, with its early
      returns. */
  method GetNestedValue(output: Json, keys: seq<Key>, default: Json) returns (r: Outcome<Json>)
    ensures r == NestedValue(output, keys, default)
  {
    if output.JNull? {
      return Raised(RuntimeError);
    }
    var current := output;
    var i := 0;
    while i < |keys|
      invariant 0 <= i <= |keys|
      invariant Walk(current, keys[i..]) == Walk(output, keys)
    {
      if current.JNull? {
        return Returned(default);
      }
      match current {
        case JObj(fields) =>
          current := if keys[i].Name? then GetOr(fields, keys[i].name, JNull) else JNull;
        case JArr(items) =>
          if keys[i].Pos? && keys[i].pos < |items| {
            current := items[keys[i].pos];
          } else {
            return Returned(default);
          }
        case _ =>
          return Returned(default);
      }
      assert keys[i..][1..] == keys[i + 1..];
      i := i + 1;
    }
    return Returned(if current.JNull? then default else current);
  }

  /** Walking a path in two pieces is walking it whole. */
  lemma {:induction false} WalkAppend(current: Json, a: seq<Key>, b: seq<Key>)
    ensures Walk(current, a + b) == Walk(Walk(current, a), b)
    decreases |a|
  {
    if |a| == 0 {
      assert a + b == b;
    } else if current.JNull? {
      WalkFromNull(b);
    } else {
      assert (a + b)[0] == a[0];
      assert (a + b)[1..] == a[1..] + b;
      WalkAppend(Step(current, a[0]), a[1..], b);
    }
  }

  lemma WalkFromNull(keys: seq<Key>)
    ensures Walk(JNull, keys) == JNull
  {
  }

  /** A step that cannot be taken: a missing dict key, a position on a dict,
      a key or an out-of-range position on a list, or any step from a scalar
      or None. */
  predicate Misses(current: Json, key: Key) {
    match current
    case JObj(fields) => key.Pos? || key.name !in fields
    case JArr(items) => key.Name? || key.pos >= |items|
    case _ => true
  }

  /** Whatever follows a step that misses, the result is the default. */
  lemma MissYieldsDefault(output: Json, prefix: seq<Key>, key: Key, rest: seq<Key>, default: Json)
    requires !output.JNull?
    requires Misses(Walk(output, prefix), key)
    ensures NestedValue(output, prefix + [key] + rest, default) == Returned(default)
  {
    WalkAppend(output, prefix + [key], rest);
    WalkAppend(output, prefix, [key]);
    WalkFromNull(rest);
  }

  // ---------------------------------------------------------------------------
  // Accessors that try several paths
  // ---------------------------------------------------------------------------

  /** The first truthy value along the paths, in order; None when every path
      gives a falsy value. */
  function FirstTruthy(output: Json, paths: seq<seq<Key>>): (r: Outcome<Option<Json>>)
    ensures |paths| > 0 && output.JNull? ==> r == Raised(RuntimeError)
    ensures !output.JNull? ==> r.Returned?
    ensures r.Returned? && r.value.Some? ==> Truthy(r.value.value)
    ensures !output.JNull? ==>
              (r == Returned(None) <==> forall i :: 0 <= i < |paths| ==> !Truthy(Walk(output, paths[i])))
    ensures !output.JNull? && |paths| > 0 && Truthy(Walk(output, paths[0])) ==>
              r == Returned(Some(Walk(output, paths[0])))
    ensures !output.JNull? && |paths| > 1 && !Truthy(Walk(output, paths[0])) && Truthy(Walk(output, paths[1])) ==>
              r == Returned(Some(Walk(output, paths[1])))
  {
    if |paths| == 0 then Returned(None)
    else
      var v :- NestedValue(output, paths[0], JNull);
      if Truthy(v) then Returned(Some(v)) else FirstTruthy(output, paths[1..])
  }

  /** The paths tried in order: an earlier truthy value always wins. */
  lemma {:induction false} FirstTruthyWins(output: Json, paths: seq<seq<Key>>, i: nat)
    requires !output.JNull?
    requires i < |paths| && Truthy(Walk(output, paths[i]))
    requires forall j :: 0 <= j < i ==> !Truthy(Walk(output, paths[j]))
    ensures FirstTruthy(output, paths) == Returned(Some(Walk(output, paths[i])))
  {
    if i > 0 {
      assert !Truthy(Walk(output, paths[0]));
      FirstTruthyWins(output, paths[1..], i - 1);
    }
  }

  /** The shape of nom_societe, forme_juridique, code_ape, pays, code_pays and
      role_dirigeant: return the first truthy value among all paths but the
      last, else whatever the last path gives. */
  function FirstTruthyElseLast(output: Json, paths: seq<seq<Key>>): (r: Outcome<Json>)
    requires |paths| > 0
    ensures output.JNull? ==> r == Raised(RuntimeError)
    ensures !output.JNull? ==> r.Returned?
    ensures !output.JNull? && Truthy(Walk(output, paths[0])) ==> r == Returned(Walk(output, paths[0]))
    ensures !output.JNull? && (forall j :: 0 <= j < |paths| - 1 ==> !Truthy(Walk(output, paths[j]))) ==>
              r == Returned(Walk(output, paths[|paths| - 1]))
  {
    var hit :- FirstTruthy(output, paths[..|paths| - 1]);
    match hit
    case Some(v) => Returned(v)
    case None => NestedValue(output, paths[|paths| - 1], JNull)
  }

  /** The result is the value of the first path that is truthy, or of the last
      path when all the others are falsy. */
  lemma FallbackPathPriority(output: Json, paths: seq<seq<Key>>, i: nat)
    requires !output.JNull?
    requires i < |paths| && (Truthy(Walk(output, paths[i])) || i == |paths| - 1)
    requires forall j :: 0 <= j < i ==> !Truthy(Walk(output, paths[j]))
    ensures FirstTruthyElseLast(output, paths) == Returned(Walk(output, paths[i]))
  {
    var init := paths[..|paths| - 1];
    if i < |paths| - 1 {
      FirstTruthyWins(output, init, i);
    } else {
      assert forall j :: 0 <= j < |init| ==> !Truthy(Walk(output, init[j]));
    }
  }

  const PREFIX_PM: seq<Key> := Names(["formality", "content", "personneMorale"])
  const PREFIX_EXPLOITATION: seq<Key> := Names(["formality", "content", "exploitation"])
  const PREFIX_PP: seq<Key> := Names(["formality", "content", "personnePhysique"])

  const NOM_SOCIETE_PATHS: seq<seq<Key>> := [
    PREFIX_PM + Names(["identite", "entreprise", "denomination"]),
    PREFIX_EXPLOITATION + Names(["identite", "entreprise", "denomination"]),
    PREFIX_PP + Names(["identite", "entreprise", "denomination"])
  ]

  const FORME_JURIDIQUE_PATHS: seq<seq<Key>> := [
    Names(["formality", "formeJuridique"]),
    Names(["formality", "content", "natureCreation", "formeJuridique"]),
    PREFIX_PM + Names(["identite", "entreprise", "formeJuridique"]),
    PREFIX_PP + Names(["identite", "entreprise", "formeJuridique"])
  ]

  const CODE_APE_PATHS: seq<seq<Key>> := [
    PREFIX_PM + Names(["identite", "entreprise", "codeApe"]),
    PREFIX_EXPLOITATION + Names(["identite", "entreprise", "codeApe"])
  ]

  const PAYS_PATHS: seq<seq<Key>> := [
    PREFIX_PM + Names(["etablissementPrincipal", "adresse", "pays"]),
    PREFIX_EXPLOITATION + Names(["etablissementPrincipal", "adresse", "pays"]),
    PREFIX_PM + Names(["adresseEntreprise", "adresse", "pays"])
  ]

  const CODE_PAYS_PATHS: seq<seq<Key>> := [
    PREFIX_PM + Names(["etablissementPrincipal", "adresse", "codePays"]),
    PREFIX_EXPLOITATION + Names(["etablissementPrincipal", "adresse", "codePays"]),
    PREFIX_PM + Names(["adresseEntreprise", "adresse", "codePays"])
  ]

  /** `nom_societe()`: the legal entity's name, else the operator's, else the
      natural person's as found. */
  function NomSociete(output: Json): (r: Outcome<Json>)
    ensures output.JNull? ==> r == Raised(RuntimeError)
    ensures !output.JNull? && Truthy(Walk(output, NOM_SOCIETE_PATHS[0])) ==>
              r == Returned(Walk(output, NOM_SOCIETE_PATHS[0]))
    ensures !output.JNull? && !Truthy(Walk(output, NOM_SOCIETE_PATHS[0])) && Truthy(Walk(output, NOM_SOCIETE_PATHS[1])) ==>
              r == Returned(Walk(output, NOM_SOCIETE_PATHS[1]))
    ensures !output.JNull? && !Truthy(Walk(output, NOM_SOCIETE_PATHS[0])) && !Truthy(Walk(output, NOM_SOCIETE_PATHS[1])) ==>
              r == Returned(Walk(output, NOM_SOCIETE_PATHS[2]))
  {
    FirstTruthyElseLast(output, NOM_SOCIETE_PATHS)
  }

  /** `forme_juridique()`: four sources of the legal form, in order. */
  function FormeJuridique(output: Json): (r: Outcome<Json>)
    ensures output.JNull? ==> r == Raised(RuntimeError)
    ensures !output.JNull? && Truthy(Walk(output, FORME_JURIDIQUE_PATHS[0])) ==>
              r == Returned(Walk(output, FORME_JURIDIQUE_PATHS[0]))
    ensures !output.JNull? && !Truthy(Walk(output, FORME_JURIDIQUE_PATHS[0])) && Truthy(Walk(output, FORME_JURIDIQUE_PATHS[1])) ==>
              r == Returned(Walk(output, FORME_JURIDIQUE_PATHS[1]))
    ensures !output.JNull? && (forall j :: 0 <= j < 2 ==> !Truthy(Walk(output, FORME_JURIDIQUE_PATHS[j])))
              && Truthy(Walk(output, FORME_JURIDIQUE_PATHS[2])) ==>
              r == Returned(Walk(output, FORME_JURIDIQUE_PATHS[2]))
    ensures !output.JNull? && (forall j :: 0 <= j < 3 ==> !Truthy(Walk(output, FORME_JURIDIQUE_PATHS[j]))) ==>
              r == Returned(Walk(output, FORME_JURIDIQUE_PATHS[3]))
  {
    FirstTruthyElseLast(output, FORME_JURIDIQUE_PATHS)
  }

  /** `code_ape()`: the legal entity's APE code, else the operator's. */
  function CodeApe(output: Json): (r: Outcome<Json>)
    ensures output.JNull? ==> r == Raised(RuntimeError)
    ensures !output.JNull? && Truthy(Walk(output, CODE_APE_PATHS[0])) ==>
              r == Returned(Walk(output, CODE_APE_PATHS[0]))
    ensures !output.JNull? && !Truthy(Walk(output, CODE_APE_PATHS[0])) ==>
              r == Returned(Walk(output, CODE_APE_PATHS[1]))
  {
    FirstTruthyElseLast(output, CODE_APE_PATHS)
  }

  /** `pays()`: the country of the principal establishment, of the operator's
      establishment, else of the company address. */
  function Pays(output: Json): (r: Outcome<Json>)
    ensures output.JNull? ==> r == Raised(RuntimeError)
    ensures !output.JNull? && Truthy(Walk(output, PAYS_PATHS[0])) ==> r == Returned(Walk(output, PAYS_PATHS[0]))
    ensures !output.JNull? && !Truthy(Walk(output, PAYS_PATHS[0])) && Truthy(Walk(output, PAYS_PATHS[1])) ==>
              r == Returned(Walk(output, PAYS_PATHS[1]))
    ensures !output.JNull? && !Truthy(Walk(output, PAYS_PATHS[0])) && !Truthy(Walk(output, PAYS_PATHS[1])) ==>
              r == Returned(Walk(output, PAYS_PATHS[2]))
  {
    FirstTruthyElseLast(output, PAYS_PATHS)
  }

  /** `code_pays()`: the same three addresses, for the country code. */
  function CodePays(output: Json): (r: Outcome<Json>)
    ensures output.JNull? ==> r == Raised(RuntimeError)
    ensures !output.JNull? && Truthy(Walk(output, CODE_PAYS_PATHS[0])) ==>
              r == Returned(Walk(output, CODE_PAYS_PATHS[0]))
    ensures !output.JNull? && !Truthy(Walk(output, CODE_PAYS_PATHS[0])) && Truthy(Walk(output, CODE_PAYS_PATHS[1])) ==>
              r == Returned(Walk(output, CODE_PAYS_PATHS[1]))
    ensures !output.JNull? && !Truthy(Walk(output, CODE_PAYS_PATHS[0])) && !Truthy(Walk(output, CODE_PAYS_PATHS[1])) ==>
              r == Returned(Walk(output, CODE_PAYS_PATHS[2]))
  {
    FirstTruthyElseLast(output, CODE_PAYS_PATHS)
  }

  // ---------------------------------------------------------------------------
  // description_detaillee
  // ---------------------------------------------------------------------------

  const DESCRIPTION_PATHS: seq<seq<Key>> := [
    PREFIX_PM + Names(["identite", "description", "objet"]),
    PREFIX_PM + Names(["etablissementPrincipal", "activites"]) + [Pos(0), Name("descriptionDetaillee")],
    PREFIX_PM + [Name("autresEtablissements"), Pos(0), Name("activites"), Pos(0), Name("descriptionDetaillee")]
  ]

  /** `description.strip()`: only a string has `strip`. */
  function Stripped(v: Json): (r: Outcome<Json>)
    ensures v.JStr? ==> r == Returned(JStr(Strip(v.s)))
    ensures !v.JStr? ==> r == Raised(AttributeError)
  {
    match v
    case JStr(s) => Returned(JStr(Strip(s)))
    case _ => Raised(AttributeError)
  }

  /** `description_detaillee()`: the stripped text of the first truthy
      candidate, None when none is truthy. */
  function DescriptionDetaillee(output: Json): (r: Outcome<Json>)
    ensures output.JNull? ==> r == Raised(RuntimeError)
    ensures r.Returned? ==> r.value.JNull? || r.value.JStr?
    ensures r.Returned? && r.value.JStr? ==>
              |r.value.s| == 0 || (!IsSpace(r.value.s[0]) && !IsSpace(r.value.s[|r.value.s| - 1]))
    ensures !output.JNull? ==>
              (r == Returned(JNull) <==> forall i :: 0 <= i < 3 ==> !Truthy(Walk(output, DESCRIPTION_PATHS[i])))
  {
    var hit :- FirstTruthy(output, DESCRIPTION_PATHS);
    match hit
    case Some(v) => Stripped(v)
    case None => Returned(JNull)
  }

  /** The result is the stripped text of the first truthy candidate: the
      later candidates are never read, and a truthy candidate that is not a
      string raises AttributeError at `strip`. */
  lemma DescriptionFromFirstTruthy(output: Json, i: nat)
    requires !output.JNull? && i < |DESCRIPTION_PATHS|
    requires Truthy(Walk(output, DESCRIPTION_PATHS[i]))
    requires forall j :: 0 <= j < i ==> !Truthy(Walk(output, DESCRIPTION_PATHS[j]))
    ensures DescriptionDetaillee(output) == Stripped(Walk(output, DESCRIPTION_PATHS[i]))
  {
    FirstTruthyWins(output, DESCRIPTION_PATHS, i);
  }

  /** A whitespace-only first candidate is truthy, so its stripped form, the
      empty string, is returned and the later candidates are never read. */
  lemma BlankObjectGivesEmpty(output: Json)
    requires !output.JNull?
    requires Walk(output, DESCRIPTION_PATHS[0]).JStr?
    requires |Walk(output, DESCRIPTION_PATHS[0]).s| > 0
    requires forall i :: 0 <= i < |Walk(output, DESCRIPTION_PATHS[0]).s| ==> IsSpace(Walk(output, DESCRIPTION_PATHS[0]).s[i])
    ensures DescriptionDetaillee(output) == Returned(JStr(""))
  {
    StripToEmpty(Walk(output, DESCRIPTION_PATHS[0]).s);
  }

  // ---------------------------------------------------------------------------
  // Directors
  // ---------------------------------------------------------------------------

  const POUVOIRS: seq<Key> := PREFIX_PM + Names(["composition", "pouvoirs"])

  /** The path `pouvoirs[d]` followed by `tail`. */
  function DirigeantPath(d: nat, tail: seq<string>): seq<Key> {
    POUVOIRS + [Pos(d)] + Names(tail)
  }

  /** `dirigeants_box()`: the list of powers, `[]` when absent or falsy. The
      explicit check for a missing record raises the same RuntimeError as the
      walk does. */
  function DirigeantsBox(output: Json): (r: Outcome<Json>)
    ensures output.JNull? ==> r == Raised(RuntimeError)
    ensures !output.JNull? ==> r.Returned? && (Truthy(r.value) || r.value == JArr([]))
    ensures !output.JNull? && !Truthy(Walk(output, POUVOIRS)) ==> r == Returned(JArr([]))
    ensures !output.JNull? && Truthy(Walk(output, POUVOIRS)) ==> r == Returned(Walk(output, POUVOIRS))
  {
    var pouvoirs :- NestedValue(output, POUVOIRS, JNull);
    Returned(if Truthy(pouvoirs) then pouvoirs else JArr([]))
  }

  /** `individu.get("typeDePersonne") == kind`. */
  predicate IsOfType(entry: map<string, Json>, kind: string) {
    GetOr(entry, "typeDePersonne", JNull) == JStr(kind)
  }

  /** An entry of `pouvoirs` that is a dict of the given type. */
  predicate HasType(entry: Json, kind: string) {
    entry.JObj? && IsOfType(entry.fields, kind)
  }

  /** The positions, in increasing order, of the entries of the given type. */
  function IndicesOfType(entries: seq<map<string, Json>>, kind: string): (r: seq<nat>)
    ensures forall i :: 0 <= i < |r| ==> r[i] < |entries| && IsOfType(entries[r[i]], kind)
    ensures forall k :: 0 <= k < |entries| && IsOfType(entries[k], kind) ==> k in r
    ensures forall i, j :: 0 <= i < j < |r| ==> r[i] < r[j]
  {
    if |entries| == 0 then []
    else
      var last := |entries| - 1;
      var before := IndicesOfType(entries[..last], kind);
      if IsOfType(entries[last], kind) then before + [last] else before
  }

  /** `nombre_individus()` (kind "INDIVIDU") and `nombre_entreprises()` (kind
      "ENTREPRISE"): the positions of `dirigeants_box()` whose entry has that
      `typeDePersonne`, in increasing order. An entry that is not a dict
      raises AttributeError at `.get`. */
  function DirigeantsOfType(output: Json, kind: string): (r: Outcome<seq<nat>>)
    ensures output.JNull? ==> r == Raised(RuntimeError)
    ensures !output.JNull? && !Truthy(Walk(output, POUVOIRS)) ==> r == Returned([])
    ensures !output.JNull? && Walk(output, POUVOIRS).JArr? &&
            (exists i :: 0 <= i < |Walk(output, POUVOIRS).items| && !Walk(output, POUVOIRS).items[i].JObj?) ==>
              r == Raised(AttributeError)
    ensures r.Returned? ==> DirigeantsBox(output).Returned?
    ensures r.Returned? && |r.value| > 0 ==> DirigeantsBox(output).value.JArr?
    ensures r.Returned? ==> var box := DirigeantsBox(output).value;
      && (forall i :: 0 <= i < |r.value| ==> box.JArr? && r.value[i] < |box.items| && HasType(box.items[r.value[i]], kind))
      && (box.JArr? ==> forall k :: 0 <= k < |box.items| && HasType(box.items[k], kind) ==> k in r.value)
      && (forall i, j :: 0 <= i < j < |r.value| ==> r.value[i] < r.value[j])
  {
    var pouvoirs :- DirigeantsBox(output);
    var entries :- Dicts(pouvoirs);
    Returned(IndicesOfType(entries, kind))
  }

  /** No director is counted both as an individual and as a company. */
  lemma DirigeantIndices(output: Json)
    requires DirigeantsOfType(output, "INDIVIDU").Returned? && DirigeantsOfType(output, "ENTREPRISE").Returned?
    ensures var ind := DirigeantsOfType(output, "INDIVIDU").value;
      var ent := DirigeantsOfType(output, "ENTREPRISE").value;
      forall k :: k in ind ==> k !in ent
  {
    var box := DirigeantsBox(output).value;
    var ind := DirigeantsOfType(output, "INDIVIDU").value;
    forall k | k in ind
      ensures k !in DirigeantsOfType(output, "ENTREPRISE").value
    {
      var i :| 0 <= i < |ind| && ind[i] == k;
      assert HasType(box.items[k], "INDIVIDU");
    }
  }

  /** `" ".join(prenoms)` on a list or a string (whose characters are joined). */
  function JoinWithSpaces(prenoms: Json): (r: Outcome<Json>)
    requires prenoms.JArr? || prenoms.JStr?
    ensures r.Raised? <==> prenoms.JArr? && exists i :: 0 <= i < |prenoms.items| && !prenoms.items[i].JStr?
    ensures r.Raised? ==> r.error == TypeError
    ensures r.Returned? ==> r.value.JStr?
  {
    match prenoms
    case JArr(items) =>
      if forall i :: 0 <= i < |items| ==> items[i].JStr? then
        Returned(JStr(Join(" ", seq(|items|, i requires 0 <= i < |items| => items[i].s))))
      else
        Raised(TypeError)
    case JStr(s) => Returned(JStr(Join(" ", seq(|s|, i requires 0 <= i < |s| => [s[i]]))))
  }

  /** The joined form of a dict's keys depends on the dict's order, which the
      model does not keep. */
  predicate JoinModelled(prenoms: Json) {
    prenoms.JObj? ==> |prenoms.fields| < 2
  }

  /** `prenom_dirigeant(d, first_prenom, output_list)`. */
  function PrenomDirigeant(output: Json, d: nat, firstPrenom: bool, outputList: bool): (r: Outcome<Json>)
    requires outputList || firstPrenom || JoinModelled(Walk(output, DirigeantPath(d, PRENOMS)))
    ensures output.JNull? ==> r == Raised(RuntimeError)
    ensures !output.JNull? && Walk(output, DirigeantPath(d, PRENOMS)).JNull? ==> r == Returned(JNull)
    ensures !output.JNull? && outputList ==> r == Returned(Walk(output, DirigeantPath(d, PRENOMS)))
    ensures !output.JNull? && !outputList && firstPrenom && Walk(output, DirigeantPath(d, PRENOMS)).JArr? ==>
              var names := Walk(output, DirigeantPath(d, PRENOMS)).items;
              r == Returned(if |names| > 0 then names[0] else JNull)
    ensures !output.JNull? && !outputList && firstPrenom && Walk(output, DirigeantPath(d, PRENOMS)).JStr? ==>
              var text := Walk(output, DirigeantPath(d, PRENOMS)).s;
              r == Returned(if |text| > 0 then JStr([text[0]]) else JNull)
    ensures !output.JNull? && !outputList && !firstPrenom && Walk(output, DirigeantPath(d, PRENOMS)) == JArr([]) ==>
              r == Returned(JStr("Pas de prénom"))
    ensures !output.JNull? && !outputList && !firstPrenom && Walk(output, DirigeantPath(d, PRENOMS)).JArr? ==>
              var names := Walk(output, DirigeantPath(d, PRENOMS)).items;
              && (|names| == 1 ==> r == Returned(names[0]))
              && (|names| >= 2 && (forall i :: 0 <= i < |names| ==> names[i].JStr?) ==>
                    r == Returned(JStr(Join(" ", seq(|names|, i requires 0 <= i < |names| => names[i].s)))))
              && (|names| >= 2 && (exists i :: 0 <= i < |names| && !names[i].JStr?) ==> r == Raised(TypeError))
    ensures !output.JNull? && !outputList && !firstPrenom && Walk(output, DirigeantPath(d, PRENOMS)).JStr? ==>
              var text := Walk(output, DirigeantPath(d, PRENOMS)).s;
              r == Returned(JStr(if |text| == 0 then "Pas de prénom"
                                 else Join(" ", seq(|text|, i requires 0 <= i < |text| => [text[i]]))))
  {
    var prenoms :- NestedValue(output, DirigeantPath(d, PRENOMS), JNull);
    if prenoms.JNull? then Returned(JNull)
    else if outputList then Returned(prenoms)
    else if firstPrenom then
      if Truthy(prenoms) then Index(prenoms, 0) else Returned(JNull)
    else
      var n :- Len(prenoms);
      if n == 0 then Returned(JStr("Pas de prénom"))
      else if n == 1 then Index(prenoms, 0)
      else JoinWithSpaces(prenoms)
  }

  const PRENOMS: seq<string> := ["individu", "descriptionPersonne", "prenoms"]

  /** A list of first names, none holding a space, is recovered from the
      joined form by splitting on spaces. */
  lemma PrenomsSplitBack(output: Json, d: nat, names: seq<string>)
    requires !output.JNull? && |names| > 0
    requires Walk(output, DirigeantPath(d, PRENOMS)) == JArr(seq(|names|, i requires 0 <= i < |names| => JStr(names[i])))
    requires forall k, i :: 0 <= k < |names| && 0 <= i < |names[k]| ==> names[k][i] != ' '
    ensures PrenomDirigeant(output, d, false, false).Returned?
    ensures PrenomDirigeant(output, d, false, false).value.JStr?
    ensures Split(PrenomDirigeant(output, d, false, false).value.s, ' ') == names
  {
    var items := seq(|names|, i requires 0 <= i < |names| => JStr(names[i]));
    assert seq(|items|, i requires 0 <= i < |items| => items[i].s) == names;
    SplitJoinRoundTrip(names, ' ');
  }

  /** A single string of first names is spelled out letter by letter. */
  lemma StringPrenomsSpelledOut(output: Json, d: nat)
    requires !output.JNull? && Walk(output, DirigeantPath(d, PRENOMS)) == JStr("Jean")
    ensures PrenomDirigeant(output, d, false, false) == Returned(JStr("J e a n"))
  {
    var s := "Jean";
    var letters: seq<string> := ["J", "e", "a", "n"];
    assert seq(|s|, i requires 0 <= i < |s| => [s[i]]) == letters;
    assert letters[1..] == ["e", "a", "n"] && letters[2..] == ["a", "n"] && letters[3..] == ["n"];
    assert Join(" ", letters) == "J" + " " + ("e" + " " + ("a" + " " + "n"));
    assert "J" + " " + ("e" + " " + ("a" + " " + "n")) == "J e a n";
  }

  /** `role_dirigeant(d)`: the person's role, else the company's role. */
  function RoleDirigeant(output: Json, d: nat): (r: Outcome<Json>)
    ensures output.JNull? ==> r == Raised(RuntimeError)
    ensures !output.JNull? && Truthy(Walk(output, DirigeantPath(d, ["individu", "descriptionPersonne", "role"]))) ==>
              r == Returned(Walk(output, DirigeantPath(d, ["individu", "descriptionPersonne", "role"])))
    ensures !output.JNull? && !Truthy(Walk(output, DirigeantPath(d, ["individu", "descriptionPersonne", "role"]))) ==>
              r == Returned(Walk(output, DirigeantPath(d, ["roleEntreprise"])))
  {
    FirstTruthyElseLast(output, [
      DirigeantPath(d, ["individu", "descriptionPersonne", "role"]),
      DirigeantPath(d, ["roleEntreprise"])
    ])
  }

  /** The fields `adresse_domicile_dirigeant` accepts. */
  predicate IsAddressField(field: string) {
    field == "pays" || field == "codePostal" || field == "commune" || field == "codePays"
  }

  /** `adresse_domicile_dirigeant(d, field)`: the field name is checked before
      the record is touched. */
  function AdresseDomicileDirigeant(output: Json, d: nat, field: string): (r: Outcome<Json>)
    ensures !IsAddressField(field) ==> r == Raised(ValueError)
    ensures IsAddressField(field) && output.JNull? ==> r == Raised(RuntimeError)
    ensures IsAddressField(field) && !output.JNull? ==>
              r == Returned(Walk(output, DirigeantPath(d, ["individu", "adresseDomicile", field])))
  {
    if !IsAddressField(field) then Raised(ValueError)
    else NestedValue(output, DirigeantPath(d, ["individu", "adresseDomicile", field]), JNull)
  }

  // ---------------------------------------------------------------------------
  // numero_voie
  // ---------------------------------------------------------------------------

  const ADRESSE_PRINCIPALE: seq<Key> := PREFIX_PM + Names(["etablissementPrincipal", "adresse"])

  /** `base.get(k, "")`. */
  function Field(base: map<string, Json>, k: string): Json {
    GetOr(base, k, JStr(""))
  }

  /** The street fields are printed with an f-string; the model spells out
      the printed form of every value but a non-empty list or dict. */
  predicate StreetPrintable(base: map<string, Json>) {
    && HasModelledStr(Field(base, "numVoie"))
    && HasModelledStr(Field(base, "typeVoie"))
    && HasModelledStr(Field(base, "voie"))
  }

  /** The street fields of the record's principal address are printable. */
  predicate AddressPrintable(output: Json) {
    var adresse := Walk(output, ADRESSE_PRINCIPALE);
    adresse.JObj? ==> StreetPrintable(adresse.fields)
  }

  /** `f"{num_voie} {type_voie} {voie}".strip()`. */
  function StreetLine(numVoie: Json, typeVoie: Json, voie: Json): string
    requires HasModelledStr(numVoie) && HasModelledStr(typeVoie) && HasModelledStr(voie)
  {
    Strip(StrOf(numVoie) + " " + StrOf(typeVoie) + " " + StrOf(voie))
  }

  /** Whether any of the three street fields is truthy. */
  predicate HasStreet(base: map<string, Json>) {
    Truthy(Field(base, "numVoie")) || Truthy(Field(base, "typeVoie")) || Truthy(Field(base, "voie"))
  }

  /** The `parts` numero_voie joins: the complement when truthy, then the
      street line when any of its three fields is truthy. */
  function AddressParts(base: map<string, Json>): seq<Json>
    requires StreetPrintable(base)
  {
    (if Truthy(Field(base, "complementLocalisation")) then [Field(base, "complementLocalisation")] else [])
      + (if HasStreet(base) then [JStr(StreetLine(Field(base, "numVoie"), Field(base, "typeVoie"), Field(base, "voie")))] else [])
  }

  /** The strings held by parts that are all strings. */
  function Texts(parts: seq<Json>): (r: seq<string>)
    requires forall i :: 0 <= i < |parts| ==> parts[i].JStr?
    ensures |r| == |parts| && forall i :: 0 <= i < |parts| ==> parts[i] == JStr(r[i])
  {
    seq(|parts|, i requires 0 <= i < |parts| => parts[i].s)
  }

  /** `"\n".join(parts).strip()`: every part must be a string. */
  function JoinLines(parts: seq<Json>): (r: Outcome<string>)
    ensures r.Raised? <==> exists i :: 0 <= i < |parts| && !parts[i].JStr?
    ensures r.Raised? ==> r.error == TypeError
    ensures |parts| == 0 ==> r == Returned("")
  {
    if forall i :: 0 <= i < |parts| ==> parts[i].JStr? then
      Returned(Strip(Join("\n", Texts(parts))))
    else
      Raised(TypeError)
  }

  /** What numero_voie returns or raises once `base` is known. */
  function AddressFrom(base: Json): (r: Outcome<string>)
    requires base.JObj? ==> StreetPrintable(base.fields)
    ensures !base.JObj? ==> r == Raised(AttributeError)
    ensures base.JObj? && Truthy(Field(base.fields, "distributionSpeciale")) ==> r == Raised(TypeError)
    ensures r.Returned? ==> |r.value| == 0 || (!IsSpace(r.value[0]) && !IsSpace(r.value[|r.value| - 1]))
  {
    if !base.JObj? then Raised(AttributeError)
    else if Truthy(Field(base.fields, "distributionSpeciale")) then Raised(TypeError)
    else JoinLines(AddressParts(base.fields))
  }

  /** `base`: the principal establishment's address, `{}` when falsy. */
  function AddressBase(output: Json): (r: Outcome<Json>)
    ensures r.Raised? <==> output.JNull?
    ensures r.Returned? ==> Truthy(r.value) || r.value == JObj(map[])
    ensures !output.JNull? && Truthy(Walk(output, ADRESSE_PRINCIPALE)) ==> r == Returned(Walk(output, ADRESSE_PRINCIPALE))
    ensures !output.JNull? && !Truthy(Walk(output, ADRESSE_PRINCIPALE)) ==> r == Returned(JObj(map[]))
  {
    var adresse :- NestedValue(output, ADRESSE_PRINCIPALE, JNull);
    Returned(if Truthy(adresse) then adresse else JObj(map[]))
  }

  /** What numero_voie returns or raises: the empty string when the record has
      no principal address. */
  function Address(output: Json): (r: Outcome<string>)
    requires AddressPrintable(output)
    ensures output.JNull? ==> r == Raised(RuntimeError)
    ensures !output.JNull? && !Truthy(Walk(output, ADRESSE_PRINCIPALE)) ==> r == Returned("")
    ensures !output.JNull? && Truthy(Walk(output, ADRESSE_PRINCIPALE)) ==> r == AddressFrom(Walk(output, ADRESSE_PRINCIPALE))
  {
    var base :- AddressBase(output);
    AddressFrom(base)
  }

  /** `numero_voie()`: builds `parts` by appending, then joins them. */
  method NumeroVoie(output: Json) returns (r: Outcome<string>)
    requires AddressPrintable(output)
    ensures r == Address(output)
  {
    var adresse := GetNestedValue(output, ADRESSE_PRINCIPALE, JNull);
    if adresse.Raised? {
      return Raised(adresse.error);
    }
    var base := if Truthy(adresse.value) then adresse.value else JObj(map[]);
    AddressOfBase(output, adresse.value, base);
    if !base.JObj? {
      return Raised(AttributeError);
    }
    var parts: seq<Json> := [];
    var complement := Field(base.fields, "complementLocalisation");
    if Truthy(complement) {
      parts := parts + [complement];
    }
    ghost var head := parts;
    assert head == if Truthy(complement) then [complement] else [];
    var numVoie := Field(base.fields, "numVoie");
    var typeVoie := Field(base.fields, "typeVoie");
    var voie := Field(base.fields, "voie");
    ghost var street := [JStr(StreetLine(numVoie, typeVoie, voie))];
    if Truthy(numVoie) || Truthy(typeVoie) || Truthy(voie) {
      parts := parts + [JStr(StreetLine(numVoie, typeVoie, voie))];
    }
    assert parts == head + if HasStreet(base.fields) then street else [];
    var distSpeciale := Field(base.fields, "distributionSpeciale");
    if Truthy(distSpeciale) {
      return Raised(TypeError);
    }
    assert parts == AddressParts(base.fields);
    r := JoinLines(parts);
  }

  /** Once the walk has found `adresse`, numero_voie is decided by the base
      it falls back to. */
  lemma AddressOfBase(output: Json, adresse: Json, base: Json)
    requires AddressPrintable(output)
    requires NestedValue(output, ADRESSE_PRINCIPALE, JNull) == Returned(adresse)
    requires base == if Truthy(adresse) then adresse else JObj(map[])
    ensures base.JObj? ==> StreetPrintable(base.fields)
    ensures Address(output) == AddressFrom(base)
  {
    assert AddressBase(output) == Returned(base);
  }

  /** An address with none of its fields set gives the empty string. */
  lemma EmptyAddressIsEmpty(base: map<string, Json>)
    requires StreetPrintable(base)
    requires !Truthy(Field(base, "complementLocalisation")) && !HasStreet(base)
    requires !Truthy(Field(base, "distributionSpeciale"))
    ensures AddressFrom(JObj(base)) == Returned("")
  {
  }

  /** Two string lines without outer whitespace are joined by a newline and
      left as they are by the strip. */
  lemma JoinTwoLines(first: string, second: string)
    requires first != "" && !IsSpace(first[0]) && second != "" && !IsSpace(second[|second| - 1])
    ensures JoinLines([JStr(first), JStr(second)]) == Returned(first + "\n" + second)
  {
    var parts := [JStr(first), JStr(second)];
    assert Texts(parts) == [first, second];
    var joined := first + "\n" + second;
    assert Join("\n", [first, second]) == joined;
    StripUnchanged(joined);
  }

  /** With no distributionSpeciale, numero_voie joins its parts. */
  lemma AddressJoinsParts(base: map<string, Json>)
    requires StreetPrintable(base) && !Truthy(Field(base, "distributionSpeciale"))
    ensures AddressFrom(JObj(base)) == JoinLines(AddressParts(base))
  {
  }

  /** The documented example: complement `ZI` on the first line, then the
      number, type and name of the street. */
  lemma AddressExample(base: map<string, Json>)
    requires Field(base, "complementLocalisation") == JStr("ZI")
    requires Field(base, "numVoie") == JStr("207") && Field(base, "typeVoie") == JStr("IMP")
    requires Field(base, "voie") == JStr("DES QUATRE VENTS")
    requires !Truthy(Field(base, "distributionSpeciale"))
    ensures AddressFrom(JObj(base)) == Returned("ZI" + "\n" + ("207" + " " + "IMP" + " " + "DES QUATRE VENTS"))
  {
    ExampleStreetLine();
    assert "ZI"[0] == 'Z' && 'Z' !in SPACES;
    AddressTwoLines(base, "ZI", "207" + " " + "IMP" + " " + "DES QUATRE VENTS");
  }

  lemma ExampleStreetLine()
    ensures StreetLine(JStr("207"), JStr("IMP"), JStr("DES QUATRE VENTS")) == "207" + " " + "IMP" + " " + "DES QUATRE VENTS"
  {
    StripUnchanged("207" + " " + "IMP" + " " + "DES QUATRE VENTS");
  }

  /** Without a complement the address is the street line alone. */
  lemma StreetOnly(base: map<string, Json>)
    requires StreetPrintable(base) && HasStreet(base)
    requires !Truthy(Field(base, "complementLocalisation")) && !Truthy(Field(base, "distributionSpeciale"))
    ensures AddressFrom(JObj(base)) == Returned(StreetLine(Field(base, "numVoie"), Field(base, "typeVoie"), Field(base, "voie")))
  {
    var street := StreetLine(Field(base, "numVoie"), Field(base, "typeVoie"), Field(base, "voie"));
    StreetOnlyParts(base);
    AddressJoinsParts(base);
    JoinOneLine(street);
  }

  lemma StreetOnlyParts(base: map<string, Json>)
    requires StreetPrintable(base) && HasStreet(base) && !Truthy(Field(base, "complementLocalisation"))
    ensures AddressParts(base) == [JStr(StreetLine(Field(base, "numVoie"), Field(base, "typeVoie"), Field(base, "voie")))]
  {
  }

  /** One line without outer whitespace is left as it is. */
  lemma JoinOneLine(line: string)
    requires |line| > 0 ==> !IsSpace(line[0]) && !IsSpace(line[|line| - 1])
    ensures JoinLines([JStr(line)]) == Returned(line)
  {
    assert Texts([JStr(line)]) == [line];
    StripUnchanged(line);
  }

  /** A street field present with a null value is printed as `None`, unlike
      an absent one, which counts as the empty string. */
  lemma NullStreetNumberPrinted(base: map<string, Json>)
    requires base == map["numVoie" := JNull, "typeVoie" := JStr("IMP")]
    ensures AddressFrom(JObj(base)) == Returned("None" + " " + "IMP")
  {
    assert Field(base, "numVoie") == JNull && Field(base, "typeVoie") == JStr("IMP") && Field(base, "voie") == JStr("");
    NullNumberStreetLine();
    StreetOnly(base);
  }

  lemma NullNumberStreetLine()
    ensures StreetLine(JNull, JStr("IMP"), JStr("")) == "None" + " " + "IMP"
  {
    var line := "None" + " " + "IMP";
    var printed := line + " " + "";
    assert printed == line + " ";
    assert StripRight(printed) == line;
    StripUnchanged(line);
  }

  /** A complement and a street line, neither with outer whitespace, make
      two lines. */
  lemma AddressTwoLines(base: map<string, Json>, complement: string, street: string)
    requires StreetPrintable(base) && HasStreet(base)
    requires !Truthy(Field(base, "distributionSpeciale"))
    requires Field(base, "complementLocalisation") == JStr(complement)
    requires street == StreetLine(Field(base, "numVoie"), Field(base, "typeVoie"), Field(base, "voie"))
    requires complement != "" && !IsSpace(complement[0]) && street != ""
    ensures AddressFrom(JObj(base)) == Returned(complement + "\n" + street)
  {
    TwoParts(base, complement, street);
    AddressJoinsParts(base);
    JoinTwoLines(complement, street);
  }

  lemma TwoParts(base: map<string, Json>, complement: string, street: string)
    requires StreetPrintable(base) && HasStreet(base)
    requires Field(base, "complementLocalisation") == JStr(complement) && complement != ""
    requires street == StreetLine(Field(base, "numVoie"), Field(base, "typeVoie"), Field(base, "voie"))
    ensures AddressParts(base) == [JStr(complement), JStr(street)]
  {
  }

  /** When neither line holds a newline, splitting the address on newlines
      gives back the complement and the street line. */
  lemma AddressLinesSplitBack(base: map<string, Json>, complement: string, street: string)
    requires StreetPrintable(base) && HasStreet(base)
    requires !Truthy(Field(base, "distributionSpeciale"))
    requires Field(base, "complementLocalisation") == JStr(complement)
    requires street == StreetLine(Field(base, "numVoie"), Field(base, "typeVoie"), Field(base, "voie"))
    requires complement != "" && !IsSpace(complement[0]) && street != ""
    requires forall i :: 0 <= i < |complement| ==> complement[i] != '\n'
    requires forall i :: 0 <= i < |street| ==> street[i] != '\n'
    ensures AddressFrom(JObj(base)).Returned?
    ensures Split(AddressFrom(JObj(base)).value, '\n') == [complement, street]
  {
    AddressTwoLines(base, complement, street);
    SplitLines(complement, street);
  }

  lemma SplitLines(first: string, second: string)
    requires forall i :: 0 <= i < |first| ==> first[i] != '\n'
    requires forall i :: 0 <= i < |second| ==> second[i] != '\n'
    ensures Split(first + "\n" + second, '\n') == [first, second]
  {
    SplitJoinRoundTrip([first, second], '\n');
    assert Join("\n", [first, second]) == first + "\n" + second;
  }
}
