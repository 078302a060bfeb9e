/** The in-memory accessors of the annual-accounts client
    (inpi/financials.py): counts, details and per-statement fields read from
    the attachments document fetched once for a company. The document is an
    input value; `.get` on something that is not a dict raises
    AttributeError, exactly as in Python. */
module Financials {
  import opened PyBuiltins

  /** The two arrays of the attachments document: PDF statements (`bilans`)
      and entered statements (`bilansSaisis`). */
  datatype Collection = Pdf | Saisis {
    function Key(): string {
      match this
      case Pdf => "bilans"
      case Saisis => "bilansSaisis"
    }
  }

  /** `doc.get(key, [])`. */
  function Statements(doc: Json, c: Collection): (r: Outcome<Json>)
    ensures !doc.JObj? ==> r == Raised(AttributeError)
    ensures doc.JObj? ==> r == Returned(GetOr(doc.fields, c.Key(), JArr([])))
  {
    PyGet(doc, c.Key(), JArr([]))
  }

  /** `len(doc.get(key, []))`, shared by bilans_pdf_len and bilans_saisis_len. */
  function Count(doc: Json, c: Collection): (r: Outcome<nat>)
    ensures !doc.JObj? ==> r == Raised(AttributeError)
    ensures doc.JObj? && c.Key() !in doc.fields ==> r == Returned(0)
    ensures doc.JObj? && c.Key() in doc.fields && doc.fields[c.Key()].JArr? ==>
              r == Returned(|doc.fields[c.Key()].items|)
    ensures r.Raised? ==> r.error in {AttributeError, TypeError}
  {
    var list :- Statements(doc, c);
    Len(list)
  }

  /** `bilans_pdf_len()`. */
  function BilansPdfLen(doc: Json): (r: Outcome<nat>)
    ensures doc.JObj? && "bilans" !in doc.fields ==> r == Returned(0)
    ensures doc.JObj? && "bilans" in doc.fields && doc.fields["bilans"].JArr? ==>
              r == Returned(|doc.fields["bilans"].items|)
  {
    Count(doc, Pdf)
  }

  /** `bilans_saisis_len()`. */
  function BilansSaisisLen(doc: Json): (r: Outcome<nat>)
    ensures doc.JObj? && "bilansSaisis" !in doc.fields ==> r == Returned(0)
    ensures doc.JObj? && "bilansSaisis" in doc.fields && doc.fields["bilansSaisis"].JArr? ==>
              r == Returned(|doc.fields["bilansSaisis"].items|)
  {
    Count(doc, Saisis)
  }

  /** `bilans_pdf_detail(position)`: the whole list, or its element at
      `position` with no bounds check, so a position past the end raises
      IndexError. */
  function BilansPdfDetail(doc: Json, position: Option<nat>): (r: Outcome<Json>)
    ensures position.None? && doc.JObj? ==> r == Returned(GetOr(doc.fields, "bilans", JArr([])))
    ensures position.Some? && BilansPdfLen(doc).Returned? && position.value >= BilansPdfLen(doc).value &&
            (doc.JObj? && "bilans" in doc.fields ==> doc.fields["bilans"].JArr?) ==>
              r == Raised(IndexError)
    ensures position.Some? && r.Returned? && doc.JObj? && "bilans" in doc.fields && doc.fields["bilans"].JArr? ==>
              position.value < |doc.fields["bilans"].items| && r.value == doc.fields["bilans"].items[position.value]
  {
    var list :- Statements(doc, Pdf);
    match position
    case None => Returned(list)
    case Some(p) => Index(list, p)
  }

  /** `bilans_saisis_detail(position)`: the whole list, or its element at
      `position` when `position < len`, and None past the end. */
  function BilansSaisisDetail(doc: Json, position: Option<nat>): (r: Outcome<Json>)
    ensures position.None? && doc.JObj? ==> r == Returned(GetOr(doc.fields, "bilansSaisis", JArr([])))
    ensures position.Some? && BilansSaisisLen(doc).Returned? && position.value >= BilansSaisisLen(doc).value ==>
              r == Returned(JNull)
    ensures position.Some? && doc.JObj? && "bilansSaisis" in doc.fields && doc.fields["bilansSaisis"].JArr? ==>
              var items := doc.fields["bilansSaisis"].items;
              r == Returned(if position.value < |items| then items[position.value] else JNull)
    ensures r.Raised? ==> r.error != IndexError
  {
    var list :- Statements(doc, Saisis);
    match position
    case None => Returned(list)
    case Some(p) =>
      var n :- Len(list);
      if p < n then Index(list, p) else Returned(JNull)
  }

  // ---------------------------------------------------------------------------
  // Position, closing date and identifier of every statement
  // ---------------------------------------------------------------------------

  /** One `(i, bilan.get("dateCloture"), bilan.get("id"))` tuple. */
  datatype Closing = Closing(position: nat, dateCloture: Json, id: Json)

  /** The tuple of one enumerated statement; `.get` raises AttributeError on
      an entry that is not a dict. */
  function ClosingOf(i: nat, statement: Json): (r: Outcome<Closing>)
    ensures r.Returned? <==> statement.JObj?
    ensures r.Raised? ==> r.error == AttributeError
    ensures r.Returned? ==>
              r.value == Closing(i, GetOr(statement.fields, "dateCloture", JNull), GetOr(statement.fields, "id", JNull))
  {
    match statement
    case JObj(fields) => Returned(Closing(i, GetOr(fields, "dateCloture", JNull), GetOr(fields, "id", JNull)))
    case _ => Raised(AttributeError)
  }

  /** The list comprehension over `enumerate(items)`: one tuple per entry, in
      order, numbered from 0. */
  function Closings(items: seq<Json>): (r: Outcome<seq<Closing>>)
    ensures r.Returned? <==> forall i :: 0 <= i < |items| ==> items[i].JObj?
    ensures r.Raised? ==> r.error == AttributeError
    ensures r.Returned? ==> |r.value| == |items|
    ensures r.Returned? ==> forall i :: 0 <= i < |items| ==> ClosingOf(i, items[i]) == Returned(r.value[i])
    decreases |items|
  {
    if |items| == 0 then Returned([])
    else
      var init :- Closings(items[..|items| - 1]);
      var last :- ClosingOf(|items| - 1, items[|items| - 1]);
      Returned(init + [last])
  }

  /** Enumerating the value of `bilans` or `bilansSaisis`: a list yields its
      entries; a string or a dict yields characters or keys, on which `.get`
      raises AttributeError unless there are none; anything else is not
      iterable. */
  function EnumeratedClosings(list: Json): (r: Outcome<seq<Closing>>)
    ensures list.JArr? ==> r == Closings(list.items)
    ensures r.Returned? ==> Len(list).Returned? && |r.value| == Len(list).value
    ensures r.Raised? ==> r.error in {AttributeError, TypeError}
    ensures list.JStr? ==> r == if |list.s| == 0 then Returned([]) else Raised(AttributeError)
    ensures list.JObj? ==> r == if |list.fields| == 0 then Returned([]) else Raised(AttributeError)
    ensures !(list.JArr? || list.JStr? || list.JObj?) ==> r == Raised(TypeError)
  {
    match list
    case JArr(items) => Closings(items)
    case JStr(s) => if |s| == 0 then Returned([]) else Raised(AttributeError)
    case JObj(fields) => if |fields| == 0 then Returned([]) else Raised(AttributeError)
    case _ => Raised(TypeError)
  }

  /** `bilans_pdf_cloture_id(as_json=False)`. */
  function BilansPdfClotureId(doc: Json): (r: Outcome<seq<Closing>>)
    ensures r.Returned? ==> BilansPdfLen(doc) == Returned(|r.value|)
    ensures r.Returned? ==> forall i :: 0 <= i < |r.value| ==> r.value[i].position == i
  {
    var list :- Statements(doc, Pdf);
    EnumeratedClosings(list)
  }

  /** `bilans_saisis_cloture_id()`. */
  function BilansSaisisClotureId(doc: Json): (r: Outcome<seq<Closing>>)
    ensures r.Returned? ==> BilansSaisisLen(doc) == Returned(|r.value|)
    ensures r.Returned? ==> forall i :: 0 <= i < |r.value| ==> r.value[i].position == i
  {
    var list :- Statements(doc, Saisis);
    EnumeratedClosings(list)
  }

  // ---------------------------------------------------------------------------
  // Per-statement fields of the entered statements
  // ---------------------------------------------------------------------------

  /** `bilansSaisis[position]` when `position < len`, None otherwise: the
      guard every per-statement getter starts with. */
  function StatementAt(doc: Json, position: nat): (r: Outcome<Option<Json>>)
    ensures r.Returned? && r.value.None? <==>
              BilansSaisisLen(doc).Returned? && position >= BilansSaisisLen(doc).value
    ensures r.Returned? && r.value.Some? ==> BilansSaisisDetail(doc, Some(position)) == Returned(r.value.value)
  {
    var list :- Statements(doc, Saisis);
    var n :- Len(list);
    if position < n then
      var statement :- Index(list, position);
      Returned(Some(statement))
    else
      Returned(None)
  }

  /** `type_bilan_saisi(position=position)` without an identifier: None when
      no position is given or it is past the end, else the statement's
      `typeBilan`. */
  function TypeBilanSaisi(doc: Json, position: Option<nat>): (r: Outcome<Json>)
    ensures position.None? ==> r == Returned(JNull)
    ensures position.Some? && BilansSaisisLen(doc).Returned? && position.value >= BilansSaisisLen(doc).value ==>
              r == Returned(JNull)
    ensures position.Some? && StatementAt(doc, position.value).Returned? && StatementAt(doc, position.value).value.Some? ==>
              r == PyGet(StatementAt(doc, position.value).value.value, "typeBilan", JNull)
  {
    match position
    case None => Returned(JNull)
    case Some(p) =>
      var statement :- StatementAt(doc, p);
      match statement
      case None => Returned(JNull)
      case Some(s) => PyGet(s, "typeBilan", JNull)
  }

  /** The top-level keys of an entered statement read by confidentiality,
      num_chrono, date_depot, id_bilan_saisi, updated_at and date_cloture. */
  datatype StatementKey = Confidentiality | NumChrono | DateDepot | Id | UpdatedAt | DateCloture {
    function Name(): string {
      match this
      case Confidentiality => "confidentiality"
      case NumChrono => "numChrono"
      case DateDepot => "dateDepot"
      case Id => "id"
      case UpdatedAt => "updatedAt"
      case DateCloture => "dateCloture"
    }
  }

  /** `bilans[position].get(key)` when `position < len`, None otherwise. */
  function StatementField(doc: Json, position: nat, key: StatementKey): (r: Outcome<Json>)
    ensures BilansSaisisLen(doc).Returned? && position >= BilansSaisisLen(doc).value ==> r == Returned(JNull)
    ensures StatementAt(doc, position).Returned? && StatementAt(doc, position).value.Some? ==>
              r == PyGet(StatementAt(doc, position).value.value, key.Name(), JNull)
  {
    var statement :- StatementAt(doc, position);
    match statement
    case None => Returned(JNull)
    case Some(s) => PyGet(s, key.Name(), JNull)
  }

  /** The keys of `bilanSaisi.bilan.identite` read by the metadata getters,
      from adresse_metadata to date_cloture_exercice. */
  datatype IdentiteKey =
    | Adresse | InfoTraitement | CodeConfidentialite | CodeSaisie | CodeOrigineDevise | CodeDevise
    | CodeTypeBilan | NumGestion | NumDepot | CodeGreffe | DureeExerciceNMoins1
    | DateClotureExerciceNMoins1 | DureeExerciceN | DateClotureExercice
  {
    function Name(): string {
      match this
      case Adresse => "adresse"
      case InfoTraitement => "infoTraitement"
      case CodeConfidentialite => "codeConfidentialite"
      case CodeSaisie => "codeSaisie"
      case CodeOrigineDevise => "codeOrigineDevise"
      case CodeDevise => "codeDevise"
      case CodeTypeBilan => "codeTypeBilan"
      case NumGestion => "numGestion"
      case NumDepot => "numDepot"
      case CodeGreffe => "codeGreffe"
      case DureeExerciceNMoins1 => "dureeExerciceNMoins1"
      case DateClotureExerciceNMoins1 => "dateClotureExerciceNMoins1"
      case DureeExerciceN => "dureeExerciceN"
      case DateClotureExercice => "dateClotureExercice"
    }
  }

  const EMPTY: Json := JObj(map[])

  /** `bilans[position].get("bilanSaisi", {})`: the entered statement, or
      None past the end. */
  function BilanSaisi(doc: Json, position: nat): (r: Outcome<Option<Json>>)
    ensures BilansSaisisLen(doc).Returned? && position >= BilansSaisisLen(doc).value ==> r == Returned(None)
    ensures StatementAt(doc, position).Returned? && StatementAt(doc, position).value.Some? ==>
              var got := PyGet(StatementAt(doc, position).value.value, "bilanSaisi", EMPTY);
              r == if got.Returned? then Returned(Some(got.value)) else Raised(got.error)
  {
    var statement :- StatementAt(doc, position);
    match statement
    case None => Returned(None)
    case Some(s) =>
      var saisi :- PyGet(s, "bilanSaisi", EMPTY);
      Returned(Some(saisi))
  }

  /** `version_metadata(position)`. */
  function VersionMetadata(doc: Json, position: nat): (r: Outcome<Json>)
    ensures BilansSaisisLen(doc).Returned? && position >= BilansSaisisLen(doc).value ==> r == Returned(JNull)
    ensures BilanSaisi(doc, position).Returned? && BilanSaisi(doc, position).value.Some? ==>
              r == PyGet(BilanSaisi(doc, position).value.value, "version", JNull)
  {
    var saisi :- BilanSaisi(doc, position);
    match saisi
    case None => Returned(JNull)
    case Some(s) => PyGet(s, "version", JNull)
  }

  /** The metadata getters: `identite.get(key)` where `bilan_saisi`, `bilan`
      and `identite` each default to `{}` when absent. */
  function IdentiteMetadata(doc: Json, position: nat, key: IdentiteKey): (r: Outcome<Json>)
    ensures BilansSaisisLen(doc).Returned? && position >= BilansSaisisLen(doc).value ==> r == Returned(JNull)
    ensures BilanSaisi(doc, position) == Returned(Some(EMPTY)) ==> r == Returned(JNull)
    ensures (var b := BilanSaisi(doc, position); b.Returned? && b.value.Some? && !b.value.value.JObj?) ==>
              r == Raised(AttributeError)
    ensures (var b := BilanSaisi(doc, position);
             b.Returned? && b.value.Some? && b.value.value.JObj? && "bilan" !in b.value.value.fields) ==>
              r == Returned(JNull)
    ensures (var b := BilanSaisi(doc, position);
             && b.Returned? && b.value.Some? && b.value.value.JObj? && "bilan" in b.value.value.fields
             && b.value.value.fields["bilan"].JObj? && "identite" !in b.value.value.fields["bilan"].fields) ==>
              r == Returned(JNull)
  {
    var saisi :- BilanSaisi(doc, position);
    match saisi
    case None => Returned(JNull)
    case Some(s) =>
      var bilan :- PyGet(s, "bilan", EMPTY);
      var identite :- PyGet(bilan, "identite", EMPTY);
      PyGet(identite, key.Name(), JNull)
  }

  // ---------------------------------------------------------------------------
  // Properties
  // ---------------------------------------------------------------------------

  /** The document of a company with `n` entered statements, as a list. */
  predicate HasSaisis(doc: Json, items: seq<Json>) {
    doc.JObj? && "bilansSaisis" in doc.fields && doc.fields["bilansSaisis"] == JArr(items)
  }

  /** The i-th tuple of bilans_saisis_cloture_id holds the closing date and
      the identifier that date_cloture(i) and id_bilan_saisi(i) return, and
      describes the statement bilans_saisis_detail(i) returns. */
  lemma ClotureIdAgreesWithGetters(doc: Json, items: seq<Json>, i: nat)
    requires HasSaisis(doc, items)
    requires BilansSaisisClotureId(doc).Returned? && i < |BilansSaisisClotureId(doc).value|
    ensures var c := BilansSaisisClotureId(doc).value[i];
      && BilansSaisisDetail(doc, Some(i)) == Returned(items[i])
      && StatementField(doc, i, DateCloture) == Returned(c.dateCloture)
      && StatementField(doc, i, Id) == Returned(c.id)
  {
    assert ClosingOf(i, items[i]) == Returned(BilansSaisisClotureId(doc).value[i]);
    assert StatementAt(doc, i) == Returned(Some(items[i]));
  }

  /** The i-th tuple of bilans_pdf_cloture_id holds the closing date and the
      identifier of the i-th PDF statement, the one bilans_pdf_detail(i)
      returns. */
  lemma PdfClotureIdReadsBilans(doc: Json, items: seq<Json>, i: nat)
    requires doc.JObj? && "bilans" in doc.fields && doc.fields["bilans"] == JArr(items)
    requires BilansPdfClotureId(doc).Returned? && i < |BilansPdfClotureId(doc).value|
    ensures i < |items| && items[i].JObj?
    ensures BilansPdfDetail(doc, Some(i)) == Returned(items[i])
    ensures BilansPdfClotureId(doc).value[i]
            == Closing(i, GetOr(items[i].fields, "dateCloture", JNull), GetOr(items[i].fields, "id", JNull))
  {
    assert ClosingOf(i, items[i]) == Returned(BilansPdfClotureId(doc).value[i]);
  }

  /** When the statement is a dict holding a `bilanSaisi` dict (or none, which
      reads as `{}`), version_metadata returns its `version`, None when absent. */
  lemma VersionReadsBilanSaisi(doc: Json, items: seq<Json>, position: nat, saisi: map<string, Json>)
    requires HasSaisis(doc, items) && position < |items|
    requires items[position].JObj? && GetOr(items[position].fields, "bilanSaisi", EMPTY) == JObj(saisi)
    ensures VersionMetadata(doc, position) == Returned(GetOr(saisi, "version", JNull))
  {
    assert StatementAt(doc, position) == Returned(Some(items[position]));
    assert BilanSaisi(doc, position) == Returned(Some(JObj(saisi)));
  }

  /** Every per-statement getter reads the dict that bilans_saisis_detail
      returns for the same position. */
  lemma GettersReadDetail(doc: Json, items: seq<Json>, position: nat, key: StatementKey)
    requires HasSaisis(doc, items) && position < |items|
    ensures BilansSaisisDetail(doc, Some(position)) == Returned(items[position])
    ensures StatementField(doc, position, key) == PyGet(items[position], key.Name(), JNull)
    ensures TypeBilanSaisi(doc, Some(position)) == PyGet(items[position], "typeBilan", JNull)
  {
    assert StatementAt(doc, position) == Returned(Some(items[position]));
  }

  /** When the three nested dicts are present, a metadata getter returns the
      identite's entry for its key, None when the key is absent. */
  lemma IdentiteReadsNestedDicts(doc: Json, items: seq<Json>, position: nat, key: IdentiteKey,
                                 saisi: map<string, Json>, bilan: map<string, Json>, identite: map<string, Json>)
    requires HasSaisis(doc, items) && position < |items|
    requires items[position].JObj? && GetOr(items[position].fields, "bilanSaisi", EMPTY) == JObj(saisi)
    requires GetOr(saisi, "bilan", EMPTY) == JObj(bilan)
    requires GetOr(bilan, "identite", EMPTY) == JObj(identite)
    ensures IdentiteMetadata(doc, position, key) == Returned(GetOr(identite, key.Name(), JNull))
  {
    assert StatementAt(doc, position) == Returned(Some(items[position]));
    assert BilanSaisi(doc, position) == Returned(Some(JObj(saisi)));
  }

  /** A missing level anywhere along `bilanSaisi.bilan.identite` gives None. */
  lemma MissingLevelGivesNone(doc: Json, items: seq<Json>, position: nat, key: IdentiteKey)
    requires HasSaisis(doc, items) && position < |items| && items[position].JObj?
    requires var s := items[position].fields;
      || "bilanSaisi" !in s
      || (s["bilanSaisi"].JObj? && "bilan" !in s["bilanSaisi"].fields)
      || (s["bilanSaisi"].JObj? && "bilan" in s["bilanSaisi"].fields && s["bilanSaisi"].fields["bilan"].JObj? &&
          "identite" !in s["bilanSaisi"].fields["bilan"].fields)
    ensures IdentiteMetadata(doc, position, key) == Returned(JNull)
  {
    var s := items[position].fields;
    assert StatementAt(doc, position) == Returned(Some(items[position]));
    assert BilanSaisi(doc, position) == Returned(Some(GetOr(s, "bilanSaisi", EMPTY)));
  }

  /** Unlike a missing level, a level present with a null value raises
      AttributeError (`None.get`). */
  lemma NullLevelRaises(doc: Json, items: seq<Json>, position: nat, key: IdentiteKey)
    requires HasSaisis(doc, items) && position < |items| && items[position].JObj?
    requires "bilanSaisi" in items[position].fields && items[position].fields["bilanSaisi"] == JNull
    ensures IdentiteMetadata(doc, position, key) == Raised(AttributeError)
    ensures VersionMetadata(doc, position) == Raised(AttributeError)
  {
    assert StatementAt(doc, position) == Returned(Some(items[position]));
    assert BilanSaisi(doc, position) == Returned(Some(JNull));
  }

  /** Past the end, the PDF detail raises while the entered-statement detail
      and every per-statement getter return None. */
  lemma PastTheEnd(doc: Json, pdf: seq<Json>, saisis: seq<Json>, position: nat, key: StatementKey, id: IdentiteKey)
    requires HasSaisis(doc, saisis) && "bilans" in doc.fields && doc.fields["bilans"] == JArr(pdf)
    requires position >= |pdf| && position >= |saisis|
    ensures BilansPdfDetail(doc, Some(position)) == Raised(IndexError)
    ensures BilansSaisisDetail(doc, Some(position)) == Returned(JNull)
    ensures StatementField(doc, position, key) == Returned(JNull)
    ensures TypeBilanSaisi(doc, Some(position)) == Returned(JNull)
    ensures IdentiteMetadata(doc, position, id) == Returned(JNull)
    ensures VersionMetadata(doc, position) == Returned(JNull)
  {
  }
}
