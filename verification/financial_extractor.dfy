/** The financial line-item extractor (inpi/financial_extractor.py).

    A filed statement carries `pages`, each page a list of `liasses` (lines),
    each line a `code` and up to four value columns `m1`..`m4` holding integers
    written as strings. Where a metric lives depends on the statement's
    `BilanType`; the static tables below say where, and three generic resolvers
    read one cell, try an ordered list of cells, or add several cells. */
module FinancialExtractor {
  import opened PyBuiltins

  /** `BilanType`: the six schemas of a filed statement. */
  datatype BilanType = TBC | TBS | TBK | TBB | TBAC | TBAS {
    /** The enum member's value, the `typeBilan` code of a filing. */
    function Code(): string {
      match this
      case TBC => "C"
      case TBS => "S"
      case TBK => "K"
      case TBB => "B"
      case TBAC => "AC"
      case TBAS => "AS"
    }
  }

  /** `BilanType(code)`: the member whose value is `code`; any other code
      raises ValueError. */
  function BilanTypeOf(code: string): (r: Outcome<BilanType>)
    ensures r.Returned? ==> r.value.Code() == code
    ensures r.Raised? ==> r.error == ValueError
  {
    if code == "C" then Returned(TBC)
    else if code == "S" then Returned(TBS)
    else if code == "K" then Returned(TBK)
    else if code == "B" then Returned(TBB)
    else if code == "AC" then Returned(TBAC)
    else if code == "AS" then Returned(TBAS)
    else Raised(ValueError)
  }

  /** Every bilan type is recovered from its code. */
  lemma BilanTypeRoundTrip(t: BilanType)
    ensures BilanTypeOf(t.Code()) == Returned(t)
  {
  }

  /** The four value columns of a line. */
  datatype Field = M1 | M2 | M3 | M4 {
    function Key(): string {
      match this
      case M1 => "m1"
      case M2 => "m2"
      case M3 => "m3"
      case M4 => "m4"
    }
  }

  /** A `{"field": ..., "code": ...}` mapping: one cell of the line grid. */
  datatype CodeMapping = CodeMapping(field: Field, code: string)

  /** A value of the profit/loss tables: one mapping, or an ordered list of
      mappings to try in turn. */
  datatype Location = Direct(at: CodeMapping) | Fallback(chain: seq<CodeMapping>)

  // ---------------------------------------------------------------------------
  // FinancialCodeMapping. A component dict becomes the sequence of its values,
  // in the dict's order; the component names are kept as comments.
  // ---------------------------------------------------------------------------

  /** Turnover. */
  const CHIFFRE_AFFAIRES: map<BilanType, CodeMapping> :=
    map[TBC := CodeMapping(M3, "FJ"), TBK := CodeMapping(M3, "FJ")]

  const CHIFFRE_AFFAIRES_N_1: map<BilanType, CodeMapping> :=
    map[TBC := CodeMapping(M4, "FJ"), TBK := CodeMapping(M4, "FJ")]

  /** Turnover of a simplified statement: sales of goods, production of goods
      and production of services, export then domestic. */
  const CHIFFRE_AFFAIRES_TBS: seq<CodeMapping> := [
    CodeMapping(M1, "209"),  // ventes_marchandises_export
    CodeMapping(M1, "215"),  // production_biens_export
    CodeMapping(M1, "217"),  // production_services_export
    CodeMapping(M1, "210"),  // ventes_marchandises_france
    CodeMapping(M1, "214"),  // production_biens_france
    CodeMapping(M1, "218")   // production_services_france
  ]

  const CHIFFRE_AFFAIRES_N_1_TBS: seq<CodeMapping> := [
    CodeMapping(M2, "210"),  // ventes_marchandises
    CodeMapping(M2, "214"),  // production_biens
    CodeMapping(M2, "218")   // production_services
  ]

  /** Equity. */
  const CAPITAUX_PROPRES: map<BilanType, CodeMapping> :=
    map[TBC := CodeMapping(M1, "DL"), TBS := CodeMapping(M3, "142"), TBK := CodeMapping(M1, "DL")]

  const CAPITAUX_PROPRES_N_1: map<BilanType, CodeMapping> :=
    map[TBC := CodeMapping(M2, "DL"), TBS := CodeMapping(M4, "142"), TBK := CodeMapping(M2, "DL")]

  /** Equity of a bank statement, from its six components. */
  const CAPITAUX_PROPRES_TBB: seq<CodeMapping> := [
    CodeMapping(M1, "P3"),  // capital_souscrit
    CodeMapping(M1, "P4"),  // primes_emission
    CodeMapping(M1, "P5"),  // reserves
    CodeMapping(M1, "P6"),  // ecarts_reevaluation
    CodeMapping(M1, "P7"),  // report_nouveau
    CodeMapping(M1, "P8")   // resultat_exercice
  ]

  const CAPITAUX_PROPRES_N_1_TBB: seq<CodeMapping> := [
    CodeMapping(M2, "P3"),  // capital_souscrit
    CodeMapping(M2, "P4"),  // primes_emission
    CodeMapping(M2, "P5"),  // reserves
    CodeMapping(M2, "P6"),  // ecarts_reevaluation
    CodeMapping(M2, "P7"),  // report_nouveau
    CodeMapping(M2, "P8")   // resultat_exercice
  ]

  /** Profit or loss: the income statement first, the liabilities side second. */
  const BENEFICE_PERTE: map<BilanType, Location> :=
    map[
      TBK := Direct(CodeMapping(M1, "R6")),
      TBS := Fallback([CodeMapping(M1, "310"), CodeMapping(M3, "136")]),
      TBC := Fallback([CodeMapping(M1, "HN"), CodeMapping(M1, "DI")])
    ]

  const BENEFICE_PERTE_N_1: map<BilanType, Location> :=
    map[
      TBK := Direct(CodeMapping(M2, "R6")),
      TBS := Fallback([CodeMapping(M2, "310"), CodeMapping(M4, "136")]),
      TBC := Fallback([CodeMapping(M2, "HN"), CodeMapping(M2, "DI")])
    ]

  /** Net result of a bank statement. */
  const RESULTAT_EXERCICE_TBB: seq<CodeMapping> := [CodeMapping(M1, "R3"), CodeMapping(M1, "P8")]

  const RESULTAT_EXERCICE_N_1_TBB: seq<CodeMapping> := [CodeMapping(M2, "R3"), CodeMapping(M2, "P8")]

  /** Headcount. */
  const EFFECTIF: map<BilanType, CodeMapping> :=
    map[TBS := CodeMapping(M1, "376"), TBC := CodeMapping(M1, "YP")]

  const EFFECTIF_N_1: map<BilanType, CodeMapping> :=
    map[TBS := CodeMapping(M2, "376"), TBC := CodeMapping(M2, "YP")]

  // ---------------------------------------------------------------------------
  // extract_from_pages: the generator
  //   (int(liasse[field]) for page in pages
  //                       for liasse in page.get("liasses", [])
  //                       if liasse.get("code") == code)
  // driven by `next`. The scan stops at the first matching line; running off
  // the end raises StopIteration.
  // ---------------------------------------------------------------------------

  /** `liasse.get("code") == code`. */
  predicate HasCode(line: Json, code: string) {
    line.JObj? && GetOr(line.fields, "code", JNull) == JStr(code)
  }

  /** `int(liasse[field])` on a matching line. */
  function ReadCell(line: Json, field: Field): (r: Outcome<int>)
    ensures r.Raised? ==> r.error in {KeyError, ValueError, TypeError}
  {
    var cell :- Subscript(line, field.Key());
    IntOf(cell)
  }

  /** The scan over the lines of one page. */
  function ScanLines(lines: seq<Json>, field: Field, code: string): Outcome<int>
  {
    if |lines| == 0 then Raised(StopIteration)
    else if !lines[0].JObj? then Raised(AttributeError)
    else if HasCode(lines[0], code) then ReadCell(lines[0], field)
    else ScanLines(lines[1..], field, code)
  }

  /** The scan over `page.get("liasses", [])`, whatever value that is. */
  function ScanLineValue(liasses: Json, field: Field, code: string): Outcome<int> {
    match liasses
    case JArr(lines) => ScanLines(lines, field, code)
    case JStr(s) => if s == "" then Raised(StopIteration) else Raised(AttributeError)
    case JObj(m) => if |m| == 0 then Raised(StopIteration) else Raised(AttributeError)
    case _ => Raised(TypeError)
  }

  /** The scan over a list of pages. */
  function ScanPageList(pages: seq<Json>, field: Field, code: string): Outcome<int>
  {
    if |pages| == 0 then Raised(StopIteration)
    else if !pages[0].JObj? then Raised(AttributeError)
    else
      var here := ScanLineValue(GetOr(pages[0].fields, "liasses", JArr([])), field, code);
      if here == Raised(StopIteration) then ScanPageList(pages[1..], field, code) else here
  }

  /** The scan over `pages`, whatever value that is. */
  function ScanPages(pages: Json, field: Field, code: string): Outcome<int> {
    match pages
    case JArr(items) => ScanPageList(items, field, code)
    case JStr(s) => if s == "" then Raised(StopIteration) else Raised(AttributeError)
    case JObj(m) => if |m| == 0 then Raised(StopIteration) else Raised(AttributeError)
    case _ => Raised(TypeError)
  }

  /** `extract_from_pages(pages, field, code)`: StopIteration, ValueError,
      KeyError and TypeError become None; an AttributeError (a page or a line
      that is not a dict) escapes. */
  function ExtractFromPages(pages: Json, field: Field, code: string): (r: Outcome<Option<int>>)
    ensures r.Raised? ==> r.error == AttributeError
    ensures ScanPages(pages, field, code).Returned? ==> r == Returned(Some(ScanPages(pages, field, code).value))
  {
    match ScanPages(pages, field, code)
    case Returned(n) => Returned(Some(n))
    case Raised(e) => if e == AttributeError then Raised(AttributeError) else Returned(None)
  }

  // ---------------------------------------------------------------------------
  // A reference reading of extract_from_pages on well-shaped pages: flatten the
  // lines of all pages, find the first line with the code, read its cell.
  // ---------------------------------------------------------------------------

  /** Pages that are a list of dicts whose `liasses` (when present) is a list
      of dicts: the shape on which no AttributeError or TypeError can arise. */
  predicate WellShaped(pages: Json) {
    && pages.JArr?
    && forall i :: 0 <= i < |pages.items| ==> PageWellShaped(pages.items[i])
  }

  predicate PageWellShaped(page: Json) {
    && page.JObj?
    && var liasses := GetOr(page.fields, "liasses", JArr([]));
    && liasses.JArr?
    && forall j :: 0 <= j < |liasses.items| ==> liasses.items[j].JObj?
  }

  /** The lines of one page. */
  function PageLines(page: Json): seq<Json> {
    if page.JObj? && GetOr(page.fields, "liasses", JArr([])).JArr? then
      GetOr(page.fields, "liasses", JArr([])).items
    else
      []
  }

  /** The lines of all pages, page after page. */
  function AllLines(pages: seq<Json>): seq<Json> {
    if |pages| == 0 then [] else PageLines(pages[0]) + AllLines(pages[1..])
  }

  /** The position of the first line whose code is `code`. */
  function FirstWithCode(lines: seq<Json>, code: string): (r: Option<nat>)
    ensures r.Some? ==> r.value < |lines| && HasCode(lines[r.value], code)
    ensures r.Some? ==> forall j :: 0 <= j < r.value ==> !HasCode(lines[j], code)
    ensures r.None? ==> forall j :: 0 <= j < |lines| ==> !HasCode(lines[j], code)
  {
    if |lines| == 0 then None
    else if HasCode(lines[0], code) then Some(0)
    else match FirstWithCode(lines[1..], code)
      case None => None
      case Some(k) => Some(k + 1)
  }

  /** The integer in column `field` of a line, if it has one. */
  function CellValue(line: Json, field: Field): Option<int> {
    match ReadCell(line, field)
    case Returned(n) => Some(n)
    case Raised(_) => None
  }

  /** The value the extractor should find in these lines. */
  function FirstCell(lines: seq<Json>, field: Field, code: string): Option<int> {
    match FirstWithCode(lines, code)
    case None => None
    case Some(i) => CellValue(lines[i], field)
  }

  lemma {:induction false} ScanLinesFindsFirst(lines: seq<Json>, field: Field, code: string)
    requires forall j :: 0 <= j < |lines| ==> lines[j].JObj?
    ensures FirstWithCode(lines, code).None? ==> ScanLines(lines, field, code) == Raised(StopIteration)
    ensures FirstWithCode(lines, code).Some? ==>
              ScanLines(lines, field, code) == ReadCell(lines[FirstWithCode(lines, code).value], field)
  {
    if |lines| > 0 && !HasCode(lines[0], code) {
      ScanLinesFindsFirst(lines[1..], field, code);
    }
  }

  lemma {:induction false} ScanLinesAppend(a: seq<Json>, b: seq<Json>, field: Field, code: string)
    requires forall j :: 0 <= j < |a| ==> a[j].JObj?
    ensures ScanLines(a + b, field, code) ==
              if ScanLines(a, field, code) == Raised(StopIteration) then ScanLines(b, field, code)
              else ScanLines(a, field, code)
  {
    if |a| == 0 {
      assert a + b == b;
    } else {
      assert (a + b)[0] == a[0];
      assert (a + b)[1..] == a[1..] + b;
      if !HasCode(a[0], code) {
        ScanLinesAppend(a[1..], b, field, code);
      }
    }
  }

  lemma {:induction false} ScanPageListFlattens(pages: seq<Json>, field: Field, code: string)
    requires forall i :: 0 <= i < |pages| ==> PageWellShaped(pages[i])
    ensures ScanPageList(pages, field, code) == ScanLines(AllLines(pages), field, code)
  {
    if |pages| > 0 {
      ScanPageListFlattens(pages[1..], field, code);
      ScanLinesAppend(PageLines(pages[0]), AllLines(pages[1..]), field, code);
    }
  }

  /** On well-shaped pages the generator reads the cell of the first line,
      across all pages in order, whose code matches; no line matching gives None,
      and only that first match counts. */
  lemma ExtractReadsFirstMatch(pages: Json, field: Field, code: string)
    requires WellShaped(pages)
    ensures ExtractFromPages(pages, field, code) == Returned(FirstCell(AllLines(pages.items), field, code))
  {
    var lines := AllLines(pages.items);
    ScanPageListFlattens(pages.items, field, code);
    AllLinesAreDicts(pages.items);
    ScanLinesFindsFirst(lines, field, code);
  }

  lemma {:induction false} AllLinesAreDicts(pages: seq<Json>)
    requires forall i :: 0 <= i < |pages| ==> PageWellShaped(pages[i])
    ensures forall j :: 0 <= j < |AllLines(pages)| ==> AllLines(pages)[j].JObj?
  {
    if |pages| > 0 {
      AllLinesAreDicts(pages[1..]);
    }
  }

  /** A line further down with the same code never replaces the first match,
      even when the first match holds no readable integer. */
  lemma OnlyFirstMatchCounts(pages: Json, field: Field, code: string, i: nat)
    requires WellShaped(pages)
    requires i < |AllLines(pages.items)| && HasCode(AllLines(pages.items)[i], code)
    requires forall j :: 0 <= j < i ==> !HasCode(AllLines(pages.items)[j], code)
    ensures ExtractFromPages(pages, field, code) == Returned(CellValue(AllLines(pages.items)[i], field))
  {
    ExtractReadsFirstMatch(pages, field, code);
  }

  /** When exactly one line carries the code, the result is that line's cell,
      wherever its page sits among the pages. */
  lemma UniqueCodeIsFound(pages: Json, field: Field, code: string, i: nat)
    requires WellShaped(pages)
    requires i < |AllLines(pages.items)| && HasCode(AllLines(pages.items)[i], code)
    requires forall j :: 0 <= j < |AllLines(pages.items)| && j != i ==> !HasCode(AllLines(pages.items)[j], code)
    ensures ExtractFromPages(pages, field, code) == Returned(CellValue(AllLines(pages.items)[i], field))
  {
    ExtractReadsFirstMatch(pages, field, code);
  }

  /** No line carrying the code gives None. */
  lemma MissingCodeGivesNone(pages: Json, field: Field, code: string)
    requires WellShaped(pages)
    requires forall j :: 0 <= j < |AllLines(pages.items)| ==> !HasCode(AllLines(pages.items)[j], code)
    ensures ExtractFromPages(pages, field, code) == Returned(None)
  {
    ExtractReadsFirstMatch(pages, field, code);
  }

  // ---------------------------------------------------------------------------
  // extract_with_fallback
  // ---------------------------------------------------------------------------

  /** The first mapping, in list order, that yields a value. */
  function FirstHit(pages: Json, mappings: seq<CodeMapping>): (r: Outcome<Option<int>>)
    ensures r.Raised? ==> r.error == AttributeError
    ensures |mappings| == 0 ==> r == Returned(None)
  {
    if |mappings| == 0 then Returned(None)
    else
      var v :- ExtractFromPages(pages, mappings[0].field, mappings[0].code);
      if v.Some? then Returned(v) else FirstHit(pages, mappings[1..])
  }

  /** `extract_with_fallback(pages, mappings)`: the loop with early return. */
  method ExtractWithFallback(pages: Json, mappings: seq<CodeMapping>) returns (r: Outcome<Option<int>>)
    ensures r == FirstHit(pages, mappings)
  {
    var i := 0;
    while i < |mappings|
      invariant 0 <= i <= |mappings|
      invariant FirstHit(pages, mappings) == FirstHit(pages, mappings[i..])
    {
      assert mappings[i..][1..] == mappings[i + 1..];
      var result := ExtractFromPages(pages, mappings[i].field, mappings[i].code);
      if result.Raised? || result.value.Some? {
        return result;
      }
      i := i + 1;
    }
    return Returned(None);
  }

  /** Priority, not magnitude: when every earlier mapping misses, the result is
      whatever mapping `i` gives, however later mappings would resolve. */
  lemma {:induction false} FallbackPriority(pages: Json, mappings: seq<CodeMapping>, i: nat)
    requires i < |mappings|
    requires forall j :: 0 <= j < i ==> ExtractFromPages(pages, mappings[j].field, mappings[j].code) == Returned(None)
    requires ExtractFromPages(pages, mappings[i].field, mappings[i].code) != Returned(None)
    ensures FirstHit(pages, mappings) == ExtractFromPages(pages, mappings[i].field, mappings[i].code)
  {
    if i > 0 {
      assert ExtractFromPages(pages, mappings[0].field, mappings[0].code) == Returned(None);
      FallbackPriority(pages, mappings[1..], i - 1);
    }
  }

  /** When every mapping misses, the fallback misses. */
  lemma {:induction false} FallbackAllMiss(pages: Json, mappings: seq<CodeMapping>)
    requires forall j :: 0 <= j < |mappings| ==> ExtractFromPages(pages, mappings[j].field, mappings[j].code) == Returned(None)
    ensures FirstHit(pages, mappings) == Returned(None)
  {
    if |mappings| > 0 {
      assert ExtractFromPages(pages, mappings[0].field, mappings[0].code) == Returned(None);
      FallbackAllMiss(pages, mappings[1..]);
    }
  }

  // ---------------------------------------------------------------------------
  // extract_sum_from_components
  // ---------------------------------------------------------------------------

  /** The running total of the components, an absent component counting 0. */
  function Total(pages: Json, components: seq<CodeMapping>): (r: Outcome<int>)
    ensures r.Raised? ==> r.error == AttributeError
  {
    if |components| == 0 then Returned(0)
    else
      var before :- Total(pages, components[..|components| - 1]);
      var last := components[|components| - 1];
      var v :- ExtractFromPages(pages, last.field, last.code);
      Returned(before + v.GetOr(0))
  }

  /** The total of the components, kept only when strictly positive. */
  function SumOfComponents(pages: Json, components: seq<CodeMapping>): (r: Outcome<Option<int>>)
    ensures r.Raised? ==> r.error == AttributeError
    ensures r.Returned? && r.value.Some? ==> r.value.value > 0
    ensures Total(pages, components).Returned? ==>
              r == Returned(if Total(pages, components).value > 0 then Some(Total(pages, components).value) else None)
  {
    var total :- Total(pages, components);
    Returned(if total > 0 then Some(total) else None)
  }

  lemma {:induction false} TotalRaisedPrefix(pages: Json, components: seq<CodeMapping>, k: nat)
    requires k <= |components| && Total(pages, components[..k]).Raised?
    ensures Total(pages, components) == Total(pages, components[..k])
    decreases |components| - k
  {
    if k < |components| {
      assert components[..k + 1][..k] == components[..k];
      TotalRaisedPrefix(pages, components, k + 1);
    } else {
      assert components[..k] == components;
    }
  }

  /** `extract_sum_from_components(pages, components)`: the loop accumulating
      `total`. */
  method ExtractSumFromComponents(pages: Json, components: seq<CodeMapping>) returns (r: Outcome<Option<int>>)
    ensures r == SumOfComponents(pages, components)
    ensures r.Returned? && r.value.Some? ==> r.value.value > 0
  {
    var total := 0;
    var i := 0;
    while i < |components|
      invariant 0 <= i <= |components|
      invariant Total(pages, components[..i]) == Returned(total)
    {
      assert components[..i + 1][..i] == components[..i];
      var value := ExtractFromPages(pages, components[i].field, components[i].code);
      if value.Raised? {
        TotalRaisedPrefix(pages, components, i + 1);
        return Raised(value.error);
      }
      if value.value.Some? {
        total := total + value.value.value;
      }
      i := i + 1;
    }
    assert components[..i] == components;
    return if total > 0 then Returned(Some(total)) else Returned(None);
  }

  /** Absent components count as zero: when every component is absent the
      total is 0 and the sum is None. */
  lemma {:induction false} AllComponentsAbsent(pages: Json, components: seq<CodeMapping>)
    requires forall j :: 0 <= j < |components| ==> ExtractFromPages(pages, components[j].field, components[j].code) == Returned(None)
    ensures Total(pages, components) == Returned(0)
    ensures SumOfComponents(pages, components) == Returned(None)
  {
    if |components| > 0 {
      AllComponentsAbsent(pages, components[..|components| - 1]);
    }
  }

  /** On well-shaped pages no component raises. */
  lemma {:induction false} TotalOnWellShaped(pages: Json, components: seq<CodeMapping>)
    requires WellShaped(pages)
    ensures Total(pages, components).Returned?
  {
    if |components| > 0 {
      TotalOnWellShaped(pages, components[..|components| - 1]);
      var last := components[|components| - 1];
      ExtractReadsFirstMatch(pages, last.field, last.code);
    }
  }

  lemma {:induction false} TotalAppend(pages: Json, a: seq<CodeMapping>, b: seq<CodeMapping>)
    requires WellShaped(pages)
    ensures TotalOnWellShapedValue(pages, a + b) == TotalOnWellShapedValue(pages, a) + TotalOnWellShapedValue(pages, b)
    decreases |b|
  {
    TotalOnWellShaped(pages, a + b);
    TotalOnWellShaped(pages, a);
    TotalOnWellShaped(pages, b);
    if |b| == 0 {
      assert a + b == a;
    } else {
      var b' := b[..|b| - 1];
      assert (a + b)[..|a + b| - 1] == a + b';
      TotalAppend(pages, a, b');
      TotalOnWellShaped(pages, a + b');
      TotalOnWellShaped(pages, b');
    }
  }

  /** The total, on pages where it cannot raise. */
  function TotalOnWellShapedValue(pages: Json, components: seq<CodeMapping>): int
    requires WellShaped(pages)
  {
    TotalOnWellShaped(pages, components);
    Total(pages, components).value
  }

  /** Taking one component out of the list takes its own total out of the sum. */
  lemma TotalWithout(pages: Json, b: seq<CodeMapping>, k: nat, rest: seq<CodeMapping>)
    requires WellShaped(pages) && k < |b| && rest == b[..k] + b[k + 1..]
    ensures TotalOnWellShapedValue(pages, b) == TotalOnWellShapedValue(pages, [b[k]]) + TotalOnWellShapedValue(pages, rest)
  {
    assert b == b[..k] + [b[k]] + b[k + 1..];
    TotalAppend(pages, b[..k] + [b[k]], b[k + 1..]);
    TotalAppend(pages, b[..k], [b[k]]);
    TotalAppend(pages, b[..k], b[k + 1..]);
  }

  /** Taking one element out of a list takes it out of the list's multiset. */
  lemma MultisetWithout(b: seq<CodeMapping>, k: nat, rest: seq<CodeMapping>)
    requires k < |b| && rest == b[..k] + b[k + 1..]
    ensures multiset(rest) == multiset(b) - multiset{b[k]}
  {
    assert b == b[..k] + [b[k]] + b[k + 1..];
  }

  /** Two lists of the same components, in any order, total the same. */
  lemma {:induction false} TotalPermutation(pages: Json, a: seq<CodeMapping>, b: seq<CodeMapping>)
    requires WellShaped(pages) && multiset(a) == multiset(b)
    ensures TotalOnWellShapedValue(pages, a) == TotalOnWellShapedValue(pages, b)
    decreases |a|
  {
    if |a| > 0 {
      assert a[0] in multiset(b);
      var k :| 0 <= k < |b| && b[k] == a[0];
      var rest := b[..k] + b[k + 1..];
      assert a[1..] == a[..0] + a[1..];
      MultisetWithout(a, 0, a[1..]);
      MultisetWithout(b, k, rest);
      TotalPermutation(pages, a[1..], rest);
      TotalWithout(pages, a, 0, a[1..]);
      TotalWithout(pages, b, k, rest);
    }
  }

  /** Summation does not depend on the order in which the components are
      listed: any permutation gives the same result. */
  lemma SumOrderIndependent(pages: Json, a: seq<CodeMapping>, b: seq<CodeMapping>)
    requires WellShaped(pages) && multiset(a) == multiset(b)
    ensures SumOfComponents(pages, a) == SumOfComponents(pages, b)
  {
    TotalPermutation(pages, a, b);
    TotalOnWellShaped(pages, a);
    TotalOnWellShaped(pages, b);
  }

  // ---------------------------------------------------------------------------
  // The per-metric getters
  // ---------------------------------------------------------------------------

  /** `bilan_data["bilansSaisis"][position]["bilanSaisi"]["bilan"]["detail"]["pages"]`. */
  function PagesPath(doc: Json, position: nat): (r: Outcome<Json>)
    ensures r.Raised? ==> r.error in {KeyError, IndexError, TypeError}
  {
    var statements :- Subscript(doc, "bilansSaisis");
    var statement :- Index(statements, position);
    var saisi :- Subscript(statement, "bilanSaisi");
    var bilan :- Subscript(saisi, "bilan");
    var detail :- Subscript(bilan, "detail");
    Subscript(detail, "pages")
  }

  /** `get_capitaux_propres(bilan_data, position, bilan_type, n_minus_1)`. */
  function CapitauxPropres(doc: Json, position: nat, t: BilanType, priorYear: bool): (r: Outcome<Option<int>>)
    ensures r.Raised? ==> r.error == AttributeError
    ensures PagesPath(doc, position).Raised? ==> r == Returned(None)
    ensures t == TBAC || t == TBAS ==> r == Returned(None)
    ensures t == TBB && r.Returned? && r.value.Some? ==> r.value.value > 0
  {
    match PagesPath(doc, position)
    case Raised(_) => Returned(None)
    case Returned(pages) =>
      if t == TBB then
        SumOfComponents(pages, if priorYear then CAPITAUX_PROPRES_N_1_TBB else CAPITAUX_PROPRES_TBB)
      else
        var mappings := if priorYear then CAPITAUX_PROPRES_N_1 else CAPITAUX_PROPRES;
        if t in mappings then ExtractFromPages(pages, mappings[t].field, mappings[t].code)
        else Returned(None)
  }

  /** `get_benefice_perte(bilan_data, position, bilan_type, n_minus_1)`. */
  function BeneficePerte(doc: Json, position: nat, t: BilanType, priorYear: bool): (r: Outcome<Option<int>>)
    ensures r.Raised? ==> r.error == AttributeError
    ensures PagesPath(doc, position).Raised? ==> r == Returned(None)
    ensures t == TBB || t == TBAC || t == TBAS ==> r == Returned(None)
  {
    match PagesPath(doc, position)
    case Raised(_) => Returned(None)
    case Returned(pages) =>
      var mappings := if priorYear then BENEFICE_PERTE_N_1 else BENEFICE_PERTE;
      if t in mappings then
        match mappings[t]
        case Fallback(chain) => FirstHit(pages, chain)
        case Direct(at) => ExtractFromPages(pages, at.field, at.code)
      else
        Returned(None)
  }

  /** `get_resultat_exercice_tbb(bilan_data, position, n_minus_1)`. */
  function ResultatExerciceTbb(doc: Json, position: nat, priorYear: bool): (r: Outcome<Option<int>>)
    ensures r.Raised? ==> r.error == AttributeError
    ensures PagesPath(doc, position).Raised? ==> r == Returned(None)
  {
    match PagesPath(doc, position)
    case Raised(_) => Returned(None)
    case Returned(pages) =>
      FirstHit(pages, if priorYear then RESULTAT_EXERCICE_N_1_TBB else RESULTAT_EXERCICE_TBB)
  }

  /** `get_chiffre_affaires(bilan_data, position, bilan_type, n_minus_1)`. */
  function ChiffreAffaires(doc: Json, position: nat, t: BilanType, priorYear: bool): (r: Outcome<Option<int>>)
    ensures r.Raised? ==> r.error == AttributeError
    ensures PagesPath(doc, position).Raised? ==> r == Returned(None)
    ensures t == TBB || t == TBAC || t == TBAS ==> r == Returned(None)
    ensures t == TBS && r.Returned? && r.value.Some? ==> r.value.value > 0
  {
    match PagesPath(doc, position)
    case Raised(_) => Returned(None)
    case Returned(pages) =>
      if t == TBS then
        SumOfComponents(pages, if priorYear then CHIFFRE_AFFAIRES_N_1_TBS else CHIFFRE_AFFAIRES_TBS)
      else
        var mappings := if priorYear then CHIFFRE_AFFAIRES_N_1 else CHIFFRE_AFFAIRES;
        if t in mappings then ExtractFromPages(pages, mappings[t].field, mappings[t].code)
        else Returned(None)
  }

  /** `get_effectif(bilan_data, position, bilan_type, n_minus_1)`. */
  function Effectif(doc: Json, position: nat, t: BilanType, priorYear: bool): (r: Outcome<Option<int>>)
    ensures r.Raised? ==> r.error == AttributeError
    ensures PagesPath(doc, position).Raised? ==> r == Returned(None)
    ensures t != TBS && t != TBC ==> r == Returned(None)
  {
    match PagesPath(doc, position)
    case Raised(_) => Returned(None)
    case Returned(pages) =>
      var mappings := if priorYear then EFFECTIF_N_1 else EFFECTIF;
      if t in mappings then ExtractFromPages(pages, mappings[t].field, mappings[t].code)
      else Returned(None)
  }

  // ---------------------------------------------------------------------------
  // Where each getter reads, per bilan type
  // ---------------------------------------------------------------------------

  /** The column of the current year (`m1`) or of the prior year (`m2`). */
  function Year(priorYear: bool): Field {
    if priorYear then M2 else M1
  }

  /** Equity: `DL` for full and consolidated accounts, `142` in the third and
      fourth columns for simplified accounts, and the sum of `P3`..`P8` for
      banks. */
  lemma CapitauxPropresByType(doc: Json, position: nat, pages: Json, priorYear: bool)
    requires PagesPath(doc, position) == Returned(pages)
    ensures CapitauxPropres(doc, position, TBC, priorYear) == ExtractFromPages(pages, Year(priorYear), "DL")
    ensures CapitauxPropres(doc, position, TBK, priorYear) == ExtractFromPages(pages, Year(priorYear), "DL")
    ensures CapitauxPropres(doc, position, TBS, priorYear) ==
              ExtractFromPages(pages, if priorYear then M4 else M3, "142")
    ensures CapitauxPropres(doc, position, TBB, priorYear) ==
              SumOfComponents(pages, seq(6, i requires 0 <= i < 6 => CodeMapping(Year(priorYear), ["P3", "P4", "P5", "P6", "P7", "P8"][i])))
  {
    var col := Year(priorYear);
    assert (if priorYear then CAPITAUX_PROPRES_N_1_TBB else CAPITAUX_PROPRES_TBB) ==
             seq(6, i requires 0 <= i < 6 => CodeMapping(col, ["P3", "P4", "P5", "P6", "P7", "P8"][i]));
  }

  /** Profit or loss: `R6` for consolidated accounts; `310` then `136` for
      simplified accounts; `HN` then `DI` for full accounts. */
  lemma BeneficePerteByType(doc: Json, position: nat, pages: Json, priorYear: bool)
    requires PagesPath(doc, position) == Returned(pages)
    ensures BeneficePerte(doc, position, TBK, priorYear) == ExtractFromPages(pages, Year(priorYear), "R6")
    ensures BeneficePerte(doc, position, TBS, priorYear) ==
              FirstHit(pages, [CodeMapping(Year(priorYear), "310"), CodeMapping(if priorYear then M4 else M3, "136")])
    ensures BeneficePerte(doc, position, TBC, priorYear) ==
              FirstHit(pages, [CodeMapping(Year(priorYear), "HN"), CodeMapping(Year(priorYear), "DI")])
  {
  }

  /** Net result of a bank statement: `R3`, then `P8`. */
  lemma ResultatExerciceTbbReads(doc: Json, position: nat, pages: Json, priorYear: bool)
    requires PagesPath(doc, position) == Returned(pages)
    ensures ResultatExerciceTbb(doc, position, priorYear) ==
              FirstHit(pages, [CodeMapping(Year(priorYear), "R3"), CodeMapping(Year(priorYear), "P8")])
  {
  }

  /** Turnover: for simplified accounts the six export and domestic sales and
      production lines of the current year, but only the three domestic ones of
      the prior year; `FJ` in the third and fourth columns for full and
      consolidated accounts. */
  lemma ChiffreAffairesByType(doc: Json, position: nat, pages: Json, priorYear: bool)
    requires PagesPath(doc, position) == Returned(pages)
    ensures ChiffreAffaires(doc, position, TBS, false) ==
              SumOfComponents(pages, seq(6, i requires 0 <= i < 6 => CodeMapping(M1, ["209", "215", "217", "210", "214", "218"][i])))
    ensures ChiffreAffaires(doc, position, TBS, true) ==
              SumOfComponents(pages, seq(3, i requires 0 <= i < 3 => CodeMapping(M2, ["210", "214", "218"][i])))
    ensures ChiffreAffaires(doc, position, TBC, priorYear) == ExtractFromPages(pages, if priorYear then M4 else M3, "FJ")
    ensures ChiffreAffaires(doc, position, TBK, priorYear) == ExtractFromPages(pages, if priorYear then M4 else M3, "FJ")
  {
    assert CHIFFRE_AFFAIRES_TBS ==
             seq(6, i requires 0 <= i < 6 => CodeMapping(M1, ["209", "215", "217", "210", "214", "218"][i]));
    assert CHIFFRE_AFFAIRES_N_1_TBS == seq(3, i requires 0 <= i < 3 => CodeMapping(M2, ["210", "214", "218"][i]));
  }

  /** Headcount: `376` for simplified accounts and `YP` for full accounts. */
  lemma EffectifByType(doc: Json, position: nat, pages: Json, priorYear: bool)
    requires PagesPath(doc, position) == Returned(pages)
    ensures Effectif(doc, position, TBS, priorYear) == ExtractFromPages(pages, Year(priorYear), "376")
    ensures Effectif(doc, position, TBC, priorYear) == ExtractFromPages(pages, Year(priorYear), "YP")
  {
  }

  /** A document without `bilansSaisis`, or a position past its end, breaks
      the path to the pages, and every getter then returns None. */
  lemma BrokenPathGivesNone(doc: Json, position: nat, t: BilanType, priorYear: bool)
    requires doc.JObj?
    requires || "bilansSaisis" !in doc.fields
             || (doc.fields["bilansSaisis"].JArr? && position >= |doc.fields["bilansSaisis"].items|)
    ensures PagesPath(doc, position).Raised?
    ensures CapitauxPropres(doc, position, t, priorYear) == Returned(None)
    ensures BeneficePerte(doc, position, t, priorYear) == Returned(None)
    ensures ResultatExerciceTbb(doc, position, priorYear) == Returned(None)
    ensures ChiffreAffaires(doc, position, t, priorYear) == Returned(None)
    ensures Effectif(doc, position, t, priorYear) == Returned(None)
  {
  }

  /** On well-shaped pages no getter raises: every miss is None. */
  lemma GettersNeverRaise(doc: Json, position: nat, pages: Json, t: BilanType, priorYear: bool)
    requires PagesPath(doc, position) == Returned(pages) && WellShaped(pages)
    ensures CapitauxPropres(doc, position, t, priorYear).Returned?
    ensures BeneficePerte(doc, position, t, priorYear).Returned?
    ensures ResultatExerciceTbb(doc, position, priorYear).Returned?
    ensures ChiffreAffaires(doc, position, t, priorYear).Returned?
    ensures Effectif(doc, position, t, priorYear).Returned?
  {
    CapitauxPropresNeverRaises(doc, position, pages, t, priorYear);
    BeneficePerteNeverRaises(doc, position, pages, t, priorYear);
    FirstHitOnWellShaped(pages, if priorYear then RESULTAT_EXERCICE_N_1_TBB else RESULTAT_EXERCICE_TBB);
    ChiffreAffairesNeverRaises(doc, position, pages, t, priorYear);
    EffectifNeverRaises(doc, position, pages, t, priorYear);
  }

  lemma CapitauxPropresNeverRaises(doc: Json, position: nat, pages: Json, t: BilanType, priorYear: bool)
    requires PagesPath(doc, position) == Returned(pages) && WellShaped(pages)
    ensures CapitauxPropres(doc, position, t, priorYear).Returned?
  {
    var mappings := if priorYear then CAPITAUX_PROPRES_N_1 else CAPITAUX_PROPRES;
    if t == TBB {
      TotalOnWellShaped(pages, if priorYear then CAPITAUX_PROPRES_N_1_TBB else CAPITAUX_PROPRES_TBB);
    } else if t in mappings {
      ExtractReadsFirstMatch(pages, mappings[t].field, mappings[t].code);
    }
  }

  lemma BeneficePerteNeverRaises(doc: Json, position: nat, pages: Json, t: BilanType, priorYear: bool)
    requires PagesPath(doc, position) == Returned(pages) && WellShaped(pages)
    ensures BeneficePerte(doc, position, t, priorYear).Returned?
  {
    var mappings := if priorYear then BENEFICE_PERTE_N_1 else BENEFICE_PERTE;
    if t in mappings {
      match mappings[t]
      case Fallback(chain) => FirstHitOnWellShaped(pages, chain);
      case Direct(at) => ExtractReadsFirstMatch(pages, at.field, at.code);
    }
  }

  lemma ChiffreAffairesNeverRaises(doc: Json, position: nat, pages: Json, t: BilanType, priorYear: bool)
    requires PagesPath(doc, position) == Returned(pages) && WellShaped(pages)
    ensures ChiffreAffaires(doc, position, t, priorYear).Returned?
  {
    var mappings := if priorYear then CHIFFRE_AFFAIRES_N_1 else CHIFFRE_AFFAIRES;
    if t == TBS {
      TotalOnWellShaped(pages, if priorYear then CHIFFRE_AFFAIRES_N_1_TBS else CHIFFRE_AFFAIRES_TBS);
    } else if t in mappings {
      ExtractReadsFirstMatch(pages, mappings[t].field, mappings[t].code);
    }
  }

  lemma EffectifNeverRaises(doc: Json, position: nat, pages: Json, t: BilanType, priorYear: bool)
    requires PagesPath(doc, position) == Returned(pages) && WellShaped(pages)
    ensures Effectif(doc, position, t, priorYear).Returned?
  {
    var mappings := if priorYear then EFFECTIF_N_1 else EFFECTIF;
    if t in mappings {
      ExtractReadsFirstMatch(pages, mappings[t].field, mappings[t].code);
    }
  }

  lemma {:induction false} FirstHitOnWellShaped(pages: Json, mappings: seq<CodeMapping>)
    requires WellShaped(pages)
    ensures FirstHit(pages, mappings).Returned?
  {
    if |mappings| > 0 {
      ExtractReadsFirstMatch(pages, mappings[0].field, mappings[0].code);
      FirstHitOnWellShaped(pages, mappings[1..]);
    }
  }
}
