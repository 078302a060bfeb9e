# INPI API client — a verified model of its in-memory logic

This project models, in Dafny, the parts of the Python client for the French
INPI company-registry API that do their work on JSON already fetched:

- **the financial line-item extractor** (`inpi/financial_extractor.py`). It
  holds the table of where each metric sits in an entered annual statement,
  by bilan type (C, S, K, B, AC, AS). It has three generic resolvers:
  - the first matching line,
  - the first mapping that yields a value,
  - a sum kept only when strictly positive.

  It also has the five per-metric getters: equity, profit or loss, bank
  result, turnover and headcount;
- **SIREN / SIRET validation** (`utils/validators.py`): separator removal,
  length and digit checks, and taking the SIREN out of a SIRET;
- **the company-record accessors** (`inpi/companies.py`):
  - the defaulted nested-path walker;
  - the fixed-priority multi-path accessors;
  - the director filters;
  - first-name formatting;
  - street-line assembly;
- **the annual-accounts accessors** (`inpi/financials.py`): counts, details
  and per-statement fields of the `bilans` / `bilansSaisis` arrays.

Python exceptions are values: every operation returns
`Outcome<T> = Returned(value) | Raised(error)`, and each `raise` and each
`try/except` of the source is written out. JSON is a datatype with
`null`, booleans, integers, strings, lists and dicts (`map<string, Json>`).
Truthiness, `dict.get`, subscripting, `len`, `int()`, `str()` of scalars,
`str.strip`, `str.join` and `str.split` are modelled in `py_builtins.dfy`.
Where the source changes things step by step, the model does the same, and
each such method is proved equal to a specification function:
- the fallback loop (`ExtractWithFallback`);
- the accumulating sum loop (`ExtractSumFromComponents`);
- the path walker (`GetNestedValue`);
- the `parts` list that `numero_voie` appends to (`NumeroVoie`).

Files: `py_builtins.dfy` (module `PyBuiltins`), `validators.dfy`
(`Validators`), `financial_extractor.dfy` (`FinancialExtractor`),
`companies.dfy` (`Companies`), `financials.dfy` (`Financials`).

## Model

| member | source | states |
|---|---|---|
| PyBuiltins.IntOf | inpi/financial_extractor.py:205 | `int(x)` of an integer is itself; of a string it succeeds exactly on an optionally signed run of ASCII digits, with that number; otherwise ValueError or TypeError |
| PyBuiltins.ParseFormatRoundTrip | inpi/financial_extractor.py:205 | parsing the decimal spelling of any integer gives that integer back |
| PyBuiltins.StripToEmpty | inpi/companies.py:252-290 | `s.strip()` is empty exactly when every character of `s` is whitespace |
| PyBuiltins.StripIdempotent | inpi/companies.py:252-290 | stripping twice is stripping once |
| PyBuiltins.StripUnchanged | inpi/companies.py:636-659 | a string with no whitespace at either end is left unchanged by `strip` |
| PyBuiltins.SplitJoinRoundTrip | inpi/companies.py:877 | joining strings free of the separator and splitting on it gives the strings back |
| Validators.Normalize | utils/validators.py:46 | the chained `replace` calls leave no space, hyphen or period |
| Validators.NormalizeDropsSeparators | utils/validators.py:46 | the three `replace` calls together drop exactly the separators and keep every other character in order |
| Validators.Validate | utils/validators.py:37-56 | None is refused unless allowed. Otherwise validation succeeds exactly when the normalised string has the required width and only digits, and it then returns that string. Every error names the identifier kind |
| Validators.ValidateSiren | utils/validators.py:16-56 | a returned SIREN has 9 characters, all digits; every error is an InvalidSirenError |
| Validators.ValidateSiret | utils/validators.py:59-100 | a returned SIRET has 14 characters, all digits; every error is an InvalidSiretError |
| Validators.ExtractSirenFromSiret | utils/validators.py:103-122 | succeeds exactly on a valid SIRET, giving the first nine characters of its normalised form; otherwise InvalidSiretError |
| Validators.IsValidSiren | utils/validators.py:125-143 | true exactly when validate_siren without `allow_none` would not raise; None gives false |
| Validators.IsValidSiret | utils/validators.py:146-164 | true exactly when validate_siret without `allow_none` would not raise; None gives false |
| Validators.ValidatedIsCanonical | utils/validators.py:46-56 | a validated identifier has the right width, only digits and no separator, and validating it again returns it unchanged |
| Validators.LengthCheckedFirst | utils/validators.py:48-51 | a wrong-length input is refused for its length, even with non-digits in it |
| Validators.DigitsCheckedSecond | utils/validators.py:53-54 | a right-length input holding a non-digit is refused for its digits |
| Validators.DigitStringIsValidSiren | utils/validators.py:16-56 | every nine-digit string is a valid SIREN, returned unchanged |
| Validators.SeparatorIgnored | utils/validators.py:46 | inserting a space, hyphen or period anywhere changes neither the verdict nor the normalised identifier |
| Validators.SirenOfSiretIsValid | utils/validators.py:121-122 | the SIREN taken out of a valid SIRET is itself a valid SIREN |
| FinancialExtractor.BilanTypeOf | inpi/financial_extractor.py:22-31 | `BilanType(code)` returns the member with that code, and raises ValueError for any other code |
| FinancialExtractor.BilanTypeRoundTrip | inpi/financial_extractor.py:22-31 | every bilan type is recovered from its code |
| FinancialExtractor.ReadCell | inpi/financial_extractor.py:205 | reading `int(liasse[field])` fails only with KeyError, ValueError or TypeError |
| FinancialExtractor.ExtractFromPages | inpi/financial_extractor.py:183-217 | only an AttributeError (a page or line that is not a dict) escapes; a successful scan gives its integer |
| FinancialExtractor.FirstWithCode | inpi/financial_extractor.py:204-209 | the index found is that of the first line carrying the code, and none is found only when no line carries it |
| FinancialExtractor.ScanPageListFlattens | inpi/financial_extractor.py:204-209 | scanning page by page is scanning the concatenated lines of all pages |
| FinancialExtractor.ExtractReadsFirstMatch | inpi/financial_extractor.py:203-217 | on well-shaped pages the result is the cell of the first line, across pages in order, carrying the code: None when there is no such line or its cell is not an integer |
| FinancialExtractor.OnlyFirstMatchCounts | inpi/financial_extractor.py:203-217 | the first matching line decides even when its cell is unreadable; a later line with the same code is never used |
| FinancialExtractor.UniqueCodeIsFound | inpi/financial_extractor.py:203-217 | a code carried by exactly one line gives that line's cell, wherever its page sits |
| FinancialExtractor.MissingCodeGivesNone | inpi/financial_extractor.py:211-217 | no line carrying the code gives None |
| FinancialExtractor.FirstHit | inpi/financial_extractor.py:249-257 | an empty mapping list gives None; the only error that can escape is AttributeError |
| FinancialExtractor.ExtractWithFallback | inpi/financial_extractor.py:220-257 | the loop with early return returns what the first-hit specification gives |
| FinancialExtractor.FallbackPriority | inpi/financial_extractor.py:249-257 | when every earlier mapping misses, mapping i decides the result, whatever later mappings give |
| FinancialExtractor.FallbackAllMiss | inpi/financial_extractor.py:257 | when every mapping misses, the result is None |
| FinancialExtractor.Total | inpi/financial_extractor.py:288-297 | the running total can only fail with AttributeError |
| FinancialExtractor.SumOfComponents | inpi/financial_extractor.py:288-299 | a present sum is strictly positive; the result is the total when it is positive and None otherwise |
| FinancialExtractor.TotalRaisedPrefix | inpi/financial_extractor.py:290-297 | once a component raises, the remaining components do not change the outcome |
| FinancialExtractor.ExtractSumFromComponents | inpi/financial_extractor.py:260-299 | the accumulating loop returns what the sum specification gives; a present result is strictly positive |
| FinancialExtractor.AllComponentsAbsent | inpi/financial_extractor.py:296-299 | absent components count as zero: when all are absent the total is 0 and the result is None |
| FinancialExtractor.TotalOnWellShaped | inpi/financial_extractor.py:288-297 | on well-shaped pages summing never raises |
| FinancialExtractor.TotalAppend | inpi/financial_extractor.py:288-297 | the total of two component lists put together is the sum of their totals |
| FinancialExtractor.TotalWithout | inpi/financial_extractor.py:288-297 | removing one component from the list removes exactly its own amount from the total |
| FinancialExtractor.TotalPermutation | inpi/financial_extractor.py:288-297 | two lists holding the same components (the same multiset) in any order have the same total |
| FinancialExtractor.SumOrderIndependent | inpi/financial_extractor.py:290-299 | any permutation of the component list gives the same result, the positive total or None |
| FinancialExtractor.PagesPath | inpi/financial_extractor.py:328 | the path to the pages fails only with KeyError, IndexError or TypeError, the errors the getters catch |
| FinancialExtractor.BrokenPathGivesNone | inpi/financial_extractor.py:327-363 | a document without `bilansSaisis`, or a position past its end, makes every getter return None |
| FinancialExtractor.CapitauxPropres | inpi/financial_extractor.py:302-363 | a broken path gives None; AC and AS give None; a bank (B) result is None or strictly positive; only AttributeError escapes |
| FinancialExtractor.BeneficePerte | inpi/financial_extractor.py:366-415 | a broken path gives None; B, AC and AS give None; only AttributeError escapes |
| FinancialExtractor.ResultatExerciceTbb | inpi/financial_extractor.py:417-450 | a broken path gives None; only AttributeError escapes |
| FinancialExtractor.ChiffreAffaires | inpi/financial_extractor.py:453-516 | a broken path gives None; B, AC and AS give None; a simplified (S) result is None or strictly positive; only AttributeError escapes |
| FinancialExtractor.Effectif | inpi/financial_extractor.py:519-560 | a broken path gives None; every type other than S and C gives None; only AttributeError escapes |
| FinancialExtractor.CapitauxPropresByType | inpi/financial_extractor.py:78-107 | equity reads `DL` for C and K, and `142` in m3/m4 for S. For B it sums `P3`..`P8`. The columns are m1 for the current year and m2 for the prior one |
| FinancialExtractor.BeneficePerteByType | inpi/financial_extractor.py:115-146 | profit or loss reads `R6` for K. For S it tries `310` at m1/m2, then `136` at m3/m4. For C it tries `HN`, then `DI` |
| FinancialExtractor.ResultatExerciceTbbReads | inpi/financial_extractor.py:148-160 | the bank result tries `R3`, then `P8`, in the year's column |
| FinancialExtractor.ChiffreAffairesByType | inpi/financial_extractor.py:43-70 | turnover for S sums `209, 215, 217, 210, 214, 218` at m1 for the current year, but only `210, 214, 218` at m2 for the prior year. For C and K it reads `FJ` at m3/m4 |
| FinancialExtractor.EffectifByType | inpi/financial_extractor.py:168-176 | headcount reads `376` for S and `YP` for C, in the year's column |
| FinancialExtractor.GettersNeverRaise | inpi/financial_extractor.py:356-363 | on well-shaped pages no getter raises: every miss is None |
| FinancialExtractor.CapitauxPropresNeverRaises | inpi/financial_extractor.py:327-363 | on well-shaped pages the equity getter returns a value or None |
| FinancialExtractor.BeneficePerteNeverRaises | inpi/financial_extractor.py:385-415 | on well-shaped pages the profit-or-loss getter returns a value or None |
| FinancialExtractor.ChiffreAffairesNeverRaises | inpi/financial_extractor.py:478-516 | on well-shaped pages the turnover getter returns a value or None |
| FinancialExtractor.EffectifNeverRaises | inpi/financial_extractor.py:538-560 | on well-shaped pages the headcount getter returns a value or None |
| FinancialExtractor.FirstHitOnWellShaped | inpi/financial_extractor.py:249-257 | on well-shaped pages the fallback never raises |
| Companies.NestedValue | inpi/companies.py:145-192 | raises RuntimeError exactly when the record is missing. A non-null default never yields null. With no keys the whole record is returned |
| Companies.GetNestedValue | inpi/companies.py:170-192 | the step-by-step walk returns what the path specification gives |
| Companies.WalkAppend | inpi/companies.py:170-190 | walking a path in two pieces is walking it whole |
| Companies.WalkFromNull | inpi/companies.py:171-172 | once the walk reaches null it stays null |
| Companies.MissYieldsDefault | inpi/companies.py:170-192 | a missing key, a position out of range, a name used on a list or any key used on a scalar gives the default, whatever follows |
| Companies.FirstTruthy | inpi/companies.py:316-347 | a value found is truthy. A truthy first path wins, a falsy first and truthy second gives the second, and there is none exactly when no path is truthy |
| Companies.FirstTruthyWins | inpi/companies.py:316-347 | when every earlier path is falsy, truthy path i decides the result |
| Companies.FirstTruthyElseLast | inpi/companies.py:316-347 | a truthy first path wins; when every path but the last is falsy, the last path's value is returned |
| Companies.FallbackPathPriority | inpi/companies.py:316-347 | the result is the first truthy path, or the last path when all before it are falsy; an empty string falls through |
| Companies.NomSociete | inpi/companies.py:308-347 | the legal-entity name wins when truthy; else a truthy operator name; else the individual's name as found |
| Companies.FormeJuridique | inpi/companies.py:349-394 | the first truthy of the first three forms wins, in order; when all three are falsy the last path decides |
| Companies.CodeApe | inpi/companies.py:396-423 | the legal-entity activity code wins when truthy, else the individual's |
| Companies.Pays | inpi/companies.py:520-559 | the head-office country wins when truthy; else a truthy operator-establishment country; else the company address's country as found |
| Companies.CodePays | inpi/companies.py:561-600 | the head-office country code wins when truthy; else a truthy operator-establishment code; else the company address's code as found |
| Companies.Stripped | inpi/companies.py:252-290 | a string is stripped; `.strip()` on anything else raises AttributeError |
| Companies.DescriptionDetaillee | inpi/companies.py:241-290 | the result is null or a string with no outer whitespace. It is null exactly when no candidate is truthy |
| Companies.DescriptionFromFirstTruthy | inpi/companies.py:241-290 | the result is the stripped text of the first truthy candidate, or AttributeError when that candidate is not a string |
| Companies.BlankObjectGivesEmpty | inpi/companies.py:252-290 | a whitespace-only first description gives "" without trying the later paths |
| Companies.DirigeantsBox | inpi/companies.py:663-684 | the directors list is `pouvoirs` when truthy and `[]` otherwise |
| Companies.IndicesOfType | inpi/companies.py:686-714 | exactly the indices of entries of the given type, increasing and in range |
| Companies.DirigeantsOfType | inpi/companies.py:686-714 | `nombre_individus` (kind INDIVIDU) and `nombre_entreprises` (kind ENTREPRISE): a missing record raises RuntimeError, no `pouvoirs` gives [], a non-dict entry raises AttributeError; otherwise exactly the positions of the directors list whose entry has that type, in increasing order |
| Companies.DirigeantIndices | inpi/companies.py:686-714 | no position is both an individual and a company |
| Companies.JoinWithSpaces | inpi/companies.py:877 | joining raises TypeError exactly when a list entry is not a string, else gives a string |
| Companies.PrenomDirigeant | inpi/companies.py:833-877 | null first names give None. `output_list` returns the raw value and wins over `first_prenom`. `first_prenom` gives the first name (of a string, its first letter) or None. Otherwise an empty list gives "Pas de prénom", a one-item list its item, and a longer list its names joined by spaces, or TypeError when one is not a string. A string gives "Pas de prénom" when empty, else its letters joined by spaces |
| Companies.PrenomsSplitBack | inpi/companies.py:872-877 | for names without spaces, splitting the formatted first names on spaces gives the names back |
| Companies.StringPrenomsSpelledOut | inpi/companies.py:877 | one example of the string case: "Jean" stored where a list is expected gives "J e a n" |
| Companies.RoleDirigeant | inpi/companies.py:954-991 | the individual's role wins when truthy; otherwise the company-director role path decides |
| Companies.AdresseDomicileDirigeant | inpi/companies.py:1090-1131 | any field other than `pays`, `codePostal`, `commune` or `codePays` raises ValueError, even before the record is checked. Otherwise it is a plain path lookup |
| Companies.JoinLines | inpi/companies.py:659 | joining raises TypeError exactly when a part is not a string; no parts give "" |
| Companies.AddressFrom | inpi/companies.py:615-659 | a non-dict address raises AttributeError. A truthy `distributionSpeciale` raises TypeError. A result has no outer whitespace |
| Companies.AddressBase | inpi/companies.py:615-624 | the address is the principal address when truthy, else `{}` |
| Companies.Address | inpi/companies.py:602-659 | a missing record raises RuntimeError; a falsy principal address gives "" |
| Companies.NumeroVoie | inpi/companies.py:602-659 | the method appending to `parts` returns what the address specification gives |
| Companies.EmptyAddressIsEmpty | inpi/companies.py:615-659 | with no complement and no street field the address is "" |
| Companies.JoinTwoLines | inpi/companies.py:659 | two trimmed lines are joined by a newline |
| Companies.AddressExample | inpi/companies.py:602-659 | complement `ZI` with `207 IMP DES QUATRE VENTS` gives those two lines |
| Companies.StreetOnly | inpi/companies.py:636-659 | without a complement the address is the street line alone |
| Companies.NullStreetNumberPrinted | inpi/companies.py:634-646 | a street number present as null prints as `None`, unlike an absent one |
| Companies.AddressTwoLines | inpi/companies.py:615-659 | a complement and a street line with no outer whitespace make two lines, complement first |
| Companies.AddressLinesSplitBack | inpi/companies.py:615-659 | splitting the address on newlines gives back the complement and the street line |
| Financials.Count | inpi/financials.py:148-153 | the count of an absent array is 0, of a list its length; a non-dict document raises AttributeError |
| Financials.BilansPdfLen | inpi/financials.py:140-153 | the number of PDF statements, 0 when the key is absent |
| Financials.BilansSaisisLen | inpi/financials.py:252-266 | the number of entered statements, 0 when the key is absent |
| Financials.BilansPdfDetail | inpi/financials.py:113-138 | no position gives the whole list; a position past the end raises IndexError; a result is the element at the position |
| Financials.BilansSaisisDetail | inpi/financials.py:268-294 | no position gives the whole list. A position in range gives the element, and one past the end gives None. It never raises IndexError |
| Financials.ClosingOf | inpi/financials.py:312 | the tuple of a dict entry holds its position, closing date and id (None when absent); a non-dict entry raises AttributeError |
| Financials.Closings | inpi/financials.py:312 | one tuple per entry, in order, the i-th built from entry i, exactly when every entry is a dict |
| Financials.EnumeratedClosings | inpi/financials.py:307-312 | the tuples are as many as the array's length. A non-empty string or dict raises AttributeError; a scalar is not iterable |
| Financials.BilansPdfClotureId | inpi/financials.py:155-187 | as many tuples as PDF statements, numbered from 0 |
| Financials.PdfClotureIdReadsBilans | inpi/financials.py:174-187 | tuple i holds `dateCloture` and `id` of the i-th PDF statement, the one bilans_pdf_detail(i) returns |
| Financials.BilansSaisisClotureId | inpi/financials.py:296-312 | as many tuples as entered statements, numbered from 0 |
| Financials.StatementAt | inpi/financials.py:1119-1129 | nothing exactly when the position is past the end; otherwise the statement the detail accessor returns |
| Financials.TypeBilanSaisi | inpi/financials.py:338-373 | no position or one past the end gives None; otherwise `.get("typeBilan")` of the statement at that position |
| Financials.StatementField | inpi/financials.py:963-1129 | a position past the end gives None; otherwise `.get(key)` of the statement at that position |
| Financials.BilanSaisi | inpi/financials.py:393-398 | a position past the end gives nothing; otherwise `.get("bilanSaisi", {})` of the statement at that position |
| Financials.VersionMetadata | inpi/financials.py:377-401 | a position past the end gives None; otherwise `.get("version")` of the statement's `bilanSaisi` |
| Financials.VersionReadsBilanSaisi | inpi/financials.py:393-401 | with `bilanSaisi` a dict (or absent, read as `{}`), the result is its `version`, None when absent |
| Financials.IdentiteMetadata | inpi/financials.py:403-961 | a position past the end gives None, and so does a missing `bilanSaisi`, `bilan` or `identite`; a `bilanSaisi` that is present but not a dict raises AttributeError |
| Financials.ClotureIdAgreesWithGetters | inpi/financials.py:296-312 | the i-th tuple holds what date_cloture(i) and id_bilan_saisi(i) return, for the statement bilans_saisis_detail(i) returns |
| Financials.GettersReadDetail | inpi/financials.py:963-1129 | in range, every per-statement getter and type_bilan_saisi read the dict bilans_saisis_detail returns |
| Financials.IdentiteReadsNestedDicts | inpi/financials.py:403-441 | with all three levels present, a metadata getter returns the `identite` entry for its key, None when absent |
| Financials.MissingLevelGivesNone | inpi/financials.py:423-441 | a missing `bilanSaisi`, `bilan` or `identite` gives None |
| Financials.NullLevelRaises | inpi/financials.py:423-441 | a `bilanSaisi` present as null raises AttributeError, unlike a missing one |
| Financials.PastTheEnd | inpi/financials.py:113-1129 | past the end, the PDF detail raises IndexError while the entered-statement detail and every per-statement getter give None |

## Left out

- HTTP transport, token authentication and the constructors of the three
  clients are not modelled: they fetch over the network. The fetched document
  is an input value; a null company record stands for a failed fetch.
- `recherche_*`, `telecharger_*` and `type_bilan_saisi(id_bilan=…)` are not
  modelled: they fetch or write files. `inpi/documents.py` re-fetches on every
  call. `main.py` is demo glue with printing. `config.py`, `__version__.py`
  and the `__init__.py` files are configuration and boilerplate.
- `bilans_pdf_cloture_id(as_json=True)` is not modelled: it formats with
  `json.dumps`. Only the tuple list is modelled.
- `FinancialMetricType` is declared but nothing dispatches on it.
- The single-path company accessors (`nature_cessation`, `montant_capital`,
  `ville`, `nom_dirigeant`, …) are each one `_get_nested_value` call on a
  fixed path. `NestedValue` covers them and they are not repeated.
- The component names of the sum tables (`ventes_marchandises`, …) are
  dropped. Only the values of the dicts are used, in insertion order.
- Positions are natural numbers: Python's negative indices are not
  modelled.
- `int()` is an optional sign followed by ASCII digits. Surrounding
  whitespace, underscores, non-ASCII digits and floats are not modelled.
  `isdigit` is ASCII only.
- Validators.Validate: a non-string identifier is taken to be the string
  `str()` would give; the coercion itself is not modelled.
- Companies.PrenomDirigeant: requires that a dict stored as first names has
  fewer than two keys when they are to be joined. Joining a dict's keys
  depends on the dict's order, which the map-based JSON does not keep.
- Companies.Address: requires the street fields to be scalars, `[]` or `{}`.
  The `str()` of a non-empty list or dict depends on its order and formatting,
  which are not modelled. The same holds for Companies.NumeroVoie.
- `str.strip` uses Python's whitespace set. The other Unicode case,
  normalisation and encoding rules are not modelled.
