# Rule-based document field extraction, modelled in Dafny

The pipeline reads the text of a financial document and turns it into a small JSON record:
- the eight general fields (document id, type, date, customer name and id, institution name and
  address, language);
- the fields of one of four document types: credit, personal account, garnishment or
  investment.

`process_document` detects the language and runs the general extractor, then the four domain
extractors. It merges their dictionaries (later ones win), infers the document type from which
fields came out truthy, filters the fields by that type, and groups them into a "general"
section and a section named after the type.

Every extractor is a fixed sequence of regular-expression searches whose groups go through the
normalisers of `normalize.py` (dates to `DD.MM.YYYY`, names to capitalised words, money and
amounts to a number with a euro suffix, addresses to an OCR-corrected, whitespace-collapsed
line).

The model keeps the source's structure, one module per source file:

| module | file | what it holds |
|---|---|---|
| `Text` | `text.dfy` | the Python `str` operations the code relies on (`lower`, `capitalize`, `title`, `strip`, `split`, `" ".join`, `replace`, `splitlines`, `zfill`, `find`, `f"{n:02d}"`) |
| `Fields` | `fields.dfy` | field names (`Key`), field values (`Value`: `None`, `str`, `int`, `float`), document types, language handlers, Python truthiness, the filter's key tables |
| `Oracle` | `oracle.dfy` | the regular-expression engine, accent stripping and language detection as uninterpreted functions; one `Pat` per regex use site |
| `Normalize` | `normalize.dfy` | `normalize_date`, `normalize_name`, `normalize_money`, `normalize_address`, `normalize_amount` |
| `GeneralExtractor` | `general_extractor.dfy` | `extract_general_fields` and the five language routines |
| `CreditExtractor` | `credit_extractor.dfy` | `extract_credit_fields`, the label tables, `_extract_common_credit_fields`, the search helpers, the French loan fallback |
| `PersonalAccountExtractor` | `personal_account_extractor.dfy` | OCR preprocessing, the label loop, the IBAN and statement-period fallbacks, transaction counting |
| `GarnishmentExtractor` | `garnishment_extractor.dfy` | the court-order and enforcement-order routines and their dispatch |
| `InvestmentExtractor` | `investment_extractor.dfy` | the shared routine and the five language handlers |
| `ExtractorUtils` | `extractor_utils.dfy` | `detect_language`, `classify_document_type`, `structure_extracted_fields` |
| `Inference` | `field_based_inference.dfy` | `infer_document_type`: scores, first-maximum choice, fallbacks |
| `DocumentExtractor` | `document_extractor.dfy` | `filter_fields_by_type` and the body of `process_document` |

Modelling choices:
- The source's dictionaries are `map<Key, Value>` values.
- Each routine that updates a dictionary step by step is a `method` with those steps as
  statements. Its `ensures` ties the result to a specification function, and lemmas state the
  properties of that function.
- Loops (over pattern lists, correction tables, label tables, schema sections, score tables and
  text lines) are `while`/`for` loops with invariants.
- A regular expression is never interpreted. The engine (`Oracle.Oracles`) is a parameter, and
  every property holds for every answer it may give. The type `Oracle.Engine` assumes only
  three facts:
  - the day group of a date pattern is one or two digits;
  - a debtor match captures a non-empty name;
  - accent stripping brings no U+0413 (Cyrillic capital GHE) into a string without upper-case letters; under NFD only U+0403, itself upper case, decomposes to it.
- Python exceptions the code can actually raise are modelled as `Raised` results (`Fields.Result`). The one exception is the compile error of the stored date patterns, described under Left out below.
- `uuid.uuid4()` is the parameter `freshId`. The PDF text is the parameter `text`.
- `normalize.py` stores its non-ASCII literals encoded twice: UTF-8 bytes read back through a single-byte code page. The model keeps those literals exactly as stored:
  - the money and amount suffix `Normalize.EuroSuffix` is the three stored characters, not " €";
  - the accented month names are the stored character sequences, which is why `Normalize.FrenchAccentedMonthsUnreachable` holds.

## Model

| member | source | states |
|---|---|---|
| Fields.TypeName | nlp/document-extractor-nlp/document_extractor.py:95 | the type name written into `document_type` is never blank, so the filter keeps it |
| Fields.LangOf | nlp/document-extractor-nlp/credit_extractor.py:5-11 | a language code selects a handler exactly when it is one of en, de, fr, es, it, and then the handler whose code it is |
| Fields.Handler | nlp/document-extractor-nlp/credit_extractor.py:12 | `handlers.get(language, extract_..._en)`: the code's own handler, the English handler for any other code |
| Fields.TruthyOnly | nlp/document-extractor-nlp/credit_extractor.py:136 | the dict comprehension keeps exactly the truthy entries, with their values unchanged |
| Fields.OfOption | nlp/document-extractor-nlp/garnishment_extractor.py:116-118 | a result that may be absent is stored as `None` exactly when it is absent |
| Fields.Stripped | nlp/document-extractor-nlp/garnishment_extractor.py:54 | `m.group(1).strip()` is absent exactly when the search did not match |
| Fields.Store | NLP/Document_Extractor/general_extractor.py:95-96 | `if match: fields[k] = value` writes the key only when something was found |
| Fields.StoreFound | NLP/Document_Extractor/general_extractor.py:56-57 | a matched pattern writes the normaliser's answer, even `None` |
| Fields.PutOther | NLP/Document_Extractor/general_extractor.py:95-96 | one write leaves every other key as it was |
| Fields.PutFoundOther | NLP/Document_Extractor/general_extractor.py:56-57 | one normalised write leaves every other key as it was |
| Oracle.GroupOf | nlp/document-extractor-nlp/credit_extractor.py:140-142 | `m.group(k) if m else None` is absent exactly when the search does not match |
| Oracle.FirstMatch | NLP/Document_Extractor/general_extractor.py:195-200 | a loop over patterns that stops at the first hit returns the first matching pattern and no earlier one matches; nothing when none matches |
| Oracle.MacronFoldingShaped | NLP/Document_Extractor/normalize.py:7-12 | an accent stripper that folds "Ā" to "A", as NFD stripping does, meets the engine assumption on accent stripping |
| Normalize.MonthTableCodes | NLP/Document_Extractor/normalize.py:18-32 | every value of the month table a language selects (English for an unknown code) is a month code "01" to "12" |
| Normalize.GermanCodes | NLP/Document_Extractor/normalize.py:21-22 | every German month maps to a month code |
| Normalize.FrenchCodes | NLP/Document_Extractor/normalize.py:23-24 | every French month maps to a month code |
| Normalize.SpanishCodes | NLP/Document_Extractor/normalize.py:25-26 | every Spanish month maps to a month code |
| Normalize.ItalianCodes | NLP/Document_Extractor/normalize.py:27-28 | every Italian month maps to a month code |
| Normalize.EnglishCodes | NLP/Document_Extractor/normalize.py:19-20 | every English month maps to a month code |
| Normalize.MonthCode | NLP/Document_Extractor/normalize.py:56-57 | the lower-cased, accent-stripped month name is looked up with default "01", so the month is always "01" to "12" |
| Normalize.RenderDate | NLP/Document_Extractor/normalize.py:60 | `f"{int(day):02d}.{month}.{year}"`: the zero-padded day, a dot, the month code, a dot, then the year group verbatim |
| Normalize.DayPadded | NLP/Document_Extractor/normalize.py:60 | for a one- or two-digit day, `int(day):02d` is two digits and equals `day.zfill(2)` |
| Normalize.NormalizedDate | NLP/Document_Extractor/normalize.py:35-62 | `None` exactly when none of the four patterns matches; otherwise the rendering of the first matching pattern |
| Normalize.NormalizeDate | NLP/Document_Extractor/normalize.py:47-62 | the pattern loop returns what `NormalizedDate` specifies |
| Normalize.DateShape | NLP/Document_Extractor/normalize.py:60 | every normalised date starts "DD.MM." with two digits and a month code |
| Normalize.GermanMarch | NLP/Document_Extractor/normalize.py:21 | "März", lower-cased and stripped to "marz", is month "03" |
| Normalize.FrenchAccentedMonthsUnreachable | NLP/Document_Extractor/normalize.py:23-24 | the French keys for February, August and December are stored with an upper-case code point, so a lower-cased month never reaches them: French dates never get month 02, 08 or 12 |
| Normalize.Capitalized | NLP/Document_Extractor/normalize.py:70-71 | each token capitalised, in order, none dropped |
| Normalize.NormalizeName | NLP/Document_Extractor/normalize.py:64-73 | `None` exactly for the empty name |
| Normalize.CapitalizedWords | NLP/Document_Extractor/normalize.py:70-71 | capitalising tokens keeps them tokens |
| Normalize.NameTokens | NLP/Document_Extractor/normalize.py:68-72 | with two or more tokens the result is the capitalised tokens joined by single spaces, and splitting it gives those tokens back |
| Normalize.NameOfWords | NLP/Document_Extractor/normalize.py:68-72 | words joined by single spaces normalise to their capitalised forms |
| Normalize.NameOfWord | NLP/Document_Extractor/normalize.py:73 | a single word normalises to `title()` of it |
| Normalize.NameIdempotentTokens | NLP/Document_Extractor/normalize.py:68-72 | a multi-token name normalised twice equals it normalised once |
| Normalize.CapitalizedTwice | NLP/Document_Extractor/normalize.py:70-71 | capitalising capitalised tokens changes nothing |
| Normalize.NameIdempotentSingle | NLP/Document_Extractor/normalize.py:73 | a one-token name normalised twice equals it normalised once |
| Normalize.NameIdempotent | NLP/Document_Extractor/normalize.py:64-73 | `normalize_name` is idempotent on every non-empty result |
| Normalize.ParseDecimal | NLP/Document_Extractor/normalize.py:99 | when `float(s)` accepts the text, its integer and fraction parts are digit strings |
| Normalize.Fixed2 | NLP/Document_Extractor/normalize.py:100 | `f"{amount:.2f}"` is digits, a dot and exactly two digits |
| Normalize.NormalizeMoney | NLP/Document_Extractor/normalize.py:75-102 | `None` for the empty text and for a text without a number run; with a run, `None` exactly when `float` rejects the separator-cleaned run; any result is digits, a dot, two digits and the euro suffix |
| Normalize.MoneyNoComma | NLP/Document_Extractor/normalize.py:88-96 | no comma survives the separator handling, in any language |
| Normalize.DotDropped | NLP/Document_Extractor/normalize.py:91 | removing the thousands dot of "a.b,c" gives "ab,c" |
| Normalize.CommaDropped | NLP/Document_Extractor/normalize.py:96 | removing the thousands comma of "a,b.c" gives "ab.c" |
| Normalize.CommaToPoint | NLP/Document_Extractor/normalize.py:91 | turning the decimal comma of "ab,c" into a dot gives "ab.c" |
| Normalize.MoneyNotations | NLP/Document_Extractor/normalize.py:88-96 | "a.b,c" read by a European handler and "a,b.c" read by the English handler give the same number "ab.c" |
| Normalize.ParseDecimalPoint | NLP/Document_Extractor/normalize.py:99 | `float` of digits, a dot and digits reads exactly those integer and fraction digits |
| Normalize.ParseDecimalWhole | NLP/Document_Extractor/normalize.py:99 | `float` of a digit string without a dot reads it as the whole number |
| Normalize.Fixed2Exact | NLP/Document_Extractor/normalize.py:100 | with two fraction digits, `:.2f` renders the integer value without leading zeros, a dot and those two digits |
| Normalize.MoneyEuropean | NLP/Document_Extractor/normalize.py:75-100 | for de, es, fr and it, a run "a.b,c" with two decimals gives "ab" as a number, a dot, "c" and the euro suffix |
| Normalize.MoneyEnglish | NLP/Document_Extractor/normalize.py:75-100 | for any other language, a run "a,b.c" with two decimals gives "ab" as a number, a dot, "c" and the euro suffix |
| Normalize.MoneyLoneComma | NLP/Document_Extractor/normalize.py:88-100 | for de, es, fr and it, a lone comma is the decimal point: "a,c" gives "a" as a number, a dot, "c" and the euro suffix |
| Normalize.MoneyWhole | NLP/Document_Extractor/normalize.py:75-100 | a run of digits alone gives its value followed by ".00" and the euro suffix, in every language |
| Normalize.LangFixes | NLP/Document_Extractor/normalize.py:119-125 | the corrections of a language (none for a code outside the table), each searching for a non-empty string |
| Normalize.GrammarLang | NLP/Document_Extractor/normalize.py:139-159 | exactly de, fr, es and it have an address grammar |
| Normalize.ReplaceEach | NLP/Document_Extractor/normalize.py:128-134 | the correction loop applies each replacement to the whole text in turn |
| Normalize.NormalizeAddress | NLP/Document_Extractor/normalize.py:104-165 | `None` exactly for the empty address; the corrected, collapsed address; `IndexError` when the language's grammar matches; never an error for a language without a grammar |
| Normalize.ApplyAllKeepsOut | NLP/Document_Extractor/normalize.py:128-134 | the correction loop brings in no character that neither the text nor any replacement holds |
| Normalize.LetterFixesRemove | NLP/Document_Extractor/normalize.py:111-113 | after the O, l and I corrections none of those letters is left |
| Normalize.StreetFixesKeepOut | NLP/Document_Extractor/normalize.py:114-115 | the two "strabe" corrections bring back none of O, l and I |
| Normalize.OcrFixesRemove | NLP/Document_Extractor/normalize.py:110-129 | every address leaves the general corrections without O, l or I |
| Normalize.EnglishFixesKeepOut | NLP/Document_Extractor/normalize.py:124 | the English corrections bring back none of O, l and I |
| Normalize.EnglishAddress | NLP/Document_Extractor/normalize.py:104-165 | for English (the language every caller passes) a non-empty address never raises and comes out single-spaced, trimmed and without O, l or I |
| Normalize.GrammarRaises | NLP/Document_Extractor/normalize.py:159-163 | for de, fr, es and it the call raises exactly when the grammar matches the cleaned address |
| Normalize.NormalizeAmount | NLP/Document_Extractor/normalize.py:167-184 | `None` exactly without a number run; any result ends in the euro suffix |
| Normalize.AmountNoComma | NLP/Document_Extractor/normalize.py:172-182 | the numeric part of an amount never holds a comma |
| Normalize.AmountCommaFirst | NLP/Document_Extractor/normalize.py:173-175 | "a,b.c" is read as "ab.c" |
| Normalize.AmountDotFirst | NLP/Document_Extractor/normalize.py:176-178 | "a.b,c" is read as "ab.c" |
| Normalize.AmountNotations | NLP/Document_Extractor/normalize.py:167-183 | both notations of the same number give the same amount |
| Text.Lower | NLP/Document_Extractor/normalize.py:56 | `str.lower()` maps each character by itself, keeping the length |
| Text.LowerIdempotent | nlp/document-extractor-nlp/field_based_inference.py:37-38 | lower-casing twice is lower-casing once |
| Text.CapitalizeIdempotent | NLP/Document_Extractor/normalize.py:70-71 | `capitalize()` is idempotent |
| Text.TitleIdempotent | NLP/Document_Extractor/normalize.py:73 | `title()` is idempotent |
| Text.TitleAfterCasedRun | NLP/Document_Extractor/normalize.py:73 | after a cased character `title()` starts no new word: a run of cased letters is lower-cased |
| Text.TitleOrdinalWord | NLP/Document_Extractor/normalize.py:73 | the ordinal indicators ª and º are cased, so a word they open keeps them and lower-cases the rest ("ªB" gives "ªb") |
| Text.LowerAvoids | nlp/document-extractor-nlp/extractor_utils.py:59-61 | a lower-cased text never contains a keyword that holds an upper-case letter |
| Text.FindChar | NLP/Document_Extractor/normalize.py:173 | `s.find(c)` is -1 exactly when `c` is absent, otherwise the first index of `c` |
| Text.PrefixBefore | NLP/Document_Extractor/general_extractor.py:182 | `s.split(sep)[0]` is the prefix before the first `sep`, or `s` when it has none |
| Text.ReplaceSelf | nlp/document-extractor-nlp/personal_account_extractor.py:83 | replacing a string by itself changes nothing |
| Text.ReplaceCharRemoves | NLP/Document_Extractor/normalize.py:111-113 | replacing a character by a text without it removes every occurrence |
| Text.Strip | NLP/Document_Extractor/normalize.py:68 | `strip()` leaves no whitespace at either end |
| Text.DropSpaces | nlp/document-extractor-nlp/investment_extractor.py:112 | `re.sub(r"\s+", "", s)` leaves no whitespace |
| Text.Split | NLP/Document_Extractor/normalize.py:68 | `split()` yields non-empty tokens without whitespace |
| Text.SplitJoin | NLP/Document_Extractor/normalize.py:71-72 | splitting tokens joined by single spaces gives the tokens back |
| Text.CollapseIdempotent | NLP/Document_Extractor/normalize.py:136 | collapsing whitespace twice is collapsing it once |
| Text.CollapseShape | NLP/Document_Extractor/normalize.py:136 | the collapsed text has no leading, trailing, repeated or non-space whitespace |
| Text.SplitLines | NLP/Document_Extractor/general_extractor.py:246 | `splitlines()` yields lines without line boundaries |
| Text.SplitLinesNewlines | nlp/document-extractor-nlp/investment_extractor.py:68 | with '\n' as the only boundary, the number of lines is the number of '\n' plus one for an unterminated last line |
| Text.ZFill | NLP/Document_Extractor/general_extractor.py:66 | `zfill(width)` has length `max(len, width)` |
| Text.Pad2 | NLP/Document_Extractor/normalize.py:60 | `f"{n:02d}"` is at least two digits, exactly two below 100 |
| Text.Pad2IsZFill | NLP/Document_Extractor/normalize.py:60 | for a one- or two-digit day, `int(d):02d` equals `d.zfill(2)` |
| GeneralExtractor.AddressOf | NLP/Document_Extractor/general_extractor.py:119 | `normalize_address(raw)` with the English default never raises and is `None` exactly for the empty address |
| GeneralExtractor.CutBeforeKey | NLP/Document_Extractor/general_extractor.py:181-182 | a name whose lower-cased form mentions the key becomes a stripped prefix that ends where the key's spelling starts (or the whole name); otherwise the name is unchanged |
| GeneralExtractor.PutKeeps | NLP/Document_Extractor/general_extractor.py:46-119 | a write of a routine field keeps the eight keys and the id, type and language |
| GeneralExtractor.PutFoundKeeps | NLP/Document_Extractor/general_extractor.py:46-119 | a normalised write of a routine field keeps the eight keys and the id, type and language |
| GeneralExtractor.FillGermanDate | NLP/Document_Extractor/general_extractor.py:49-66 | the date block sets the date from the textual date, else the numeric date |
| GeneralExtractor.GermanDateRule | NLP/Document_Extractor/general_extractor.py:49-66 | a textual date wins through `normalize_date(..., "de")`; otherwise a numeric date becomes ten characters "DD.MM.YYYY" with day and month zero-padded; otherwise nothing is written |
| GeneralExtractor.FillGermanName | NLP/Document_Extractor/general_extractor.py:69-76 | the name block: the "Schuldn.:" debtor, else the name after "Name", through `normalize_name`, only when unset |
| GeneralExtractor.FillGermanCustomerId | NLP/Document_Extractor/general_extractor.py:79-90 | the customer-id block writes the first of its three rules that matches, only when unset |
| GeneralExtractor.GermanCustomerIdRule | NLP/Document_Extractor/general_extractor.py:79-90 | the Kundennummer stripped, else the "Az." number without spaces, else the represented-by number; none exactly when no rule matches |
| GeneralExtractor.RecipientOf | NLP/Document_Extractor/general_extractor.py:94-106 | an address comes with the institution exactly when one of the two recipient layouts matches |
| GeneralExtractor.FindRecipient | NLP/Document_Extractor/general_extractor.py:94-106 | the three institution searches, in order |
| GeneralExtractor.FillGermanInstitution | NLP/Document_Extractor/general_extractor.py:93-106 | the institution block, only when the name is unset |
| GeneralExtractor.GermanAddressOf | NLP/Document_Extractor/general_extractor.py:110-119 | an address is written exactly when a raw address is found and is not empty |
| GeneralExtractor.FindGermanAddress | NLP/Document_Extractor/general_extractor.py:110-119 | the labelled address, else the street-number-postcode address, normalised |
| GeneralExtractor.FillGermanAddress | NLP/Document_Extractor/general_extractor.py:109-119 | the address fallback, only when the address is unset |
| GeneralExtractor.ExtractGeneralDe | NLP/Document_Extractor/general_extractor.py:46-119 | the five German blocks in order |
| GeneralExtractor.GermanInstitutionFirst | NLP/Document_Extractor/general_extractor.py:93-119 | the recipient block decides name and address, and the address fallback does not override it |
| GeneralExtractor.GermanAddressOnlyWhenUnset | NLP/Document_Extractor/general_extractor.py:109-119 | a set address is never overwritten; an unset one becomes the normalised raw address |
| GeneralExtractor.GermanFrame | NLP/Document_Extractor/general_extractor.py:46-119 | the German routine writes only the five routine fields |
| GeneralExtractor.ExtractGeneralIt | NLP/Document_Extractor/general_extractor.py:123-157 | the Italian routine's blocks in order |
| GeneralExtractor.ItalianCustomerId | NLP/Document_Extractor/general_extractor.py:137-146 | a set id is kept; otherwise the non-empty account number, else the fiscal code |
| GeneralExtractor.ItalianFrame | NLP/Document_Extractor/general_extractor.py:123-157 | the Italian routine writes only the five routine fields |
| GeneralExtractor.FindEnglishAddress | NLP/Document_Extractor/general_extractor.py:191-200 | the address loop stops at the first pattern that matches |
| GeneralExtractor.ExtractGeneralEn | NLP/Document_Extractor/general_extractor.py:162-200 | the English routine's blocks in order |
| GeneralExtractor.EnglishAddressOrder | NLP/Document_Extractor/general_extractor.py:191-200 | the first address pattern wins; the second is used only when the first misses |
| GeneralExtractor.EnglishFrame | NLP/Document_Extractor/general_extractor.py:162-200 | the English routine writes only the five routine fields |
| GeneralExtractor.KnownInstitution | NLP/Document_Extractor/general_extractor.py:226-233 | the first institution of the list whose name occurs, and none exactly when none occurs |
| GeneralExtractor.FindKnownInstitution | NLP/Document_Extractor/general_extractor.py:230-233 | the institution loop with its `break` |
| GeneralExtractor.PostalLinesEmpty | NLP/Document_Extractor/general_extractor.py:245-248 | the collected lines are empty exactly when no line holds a postcode |
| GeneralExtractor.CollectPostalLines | NLP/Document_Extractor/general_extractor.py:245-248 | the fallback loop appends " " and each stripped postcode line |
| GeneralExtractor.FindSpanishAddress | NLP/Document_Extractor/general_extractor.py:236-258 | the labelled or collected address, OCR-fixed, then its first address candidate normalised |
| GeneralExtractor.ExtractGeneralEs | NLP/Document_Extractor/general_extractor.py:204-258 | the Spanish routine's blocks in order |
| GeneralExtractor.SpanishAddressNeedsPostcode | NLP/Document_Extractor/general_extractor.py:236-258 | without a labelled address and without postcode lines no address is written |
| GeneralExtractor.SpanishFrame | NLP/Document_Extractor/general_extractor.py:204-258 | the Spanish routine writes only the five routine fields |
| GeneralExtractor.FrenchText | NLP/Document_Extractor/general_extractor.py:265 | the fixed text holds no non-breaking or narrow non-breaking space |
| GeneralExtractor.ExtractGeneralFr | NLP/Document_Extractor/general_extractor.py:262-299 | the French routine searches the fixed text, block by block |
| GeneralExtractor.FrenchFrame | NLP/Document_Extractor/general_extractor.py:262-299 | the French routine writes only the five routine fields |
| GeneralExtractor.TypeOrUnknown | NLP/Document_Extractor/general_extractor.py:11 | `document_type or "unknown"` is never empty |
| GeneralExtractor.Blank | NLP/Document_Extractor/general_extractor.py:8-17 | the initial dictionary: eight keys, the language and type given, everything else `None` |
| GeneralExtractor.Route | NLP/Document_Extractor/general_extractor.py:32-41 | the routing: one routine for de, fr, es, it and en, none otherwise |
| GeneralExtractor.ExtractGeneralFields | NLP/Document_Extractor/general_extractor.py:6-43 | the blank dictionary, the identifier, then the routed language routine |
| GeneralExtractor.GeneralShape | NLP/Document_Extractor/general_extractor.py:6-43 | exactly the eight general keys; the id is the identifier match or the fresh identifier; type and language as given |
| GeneralExtractor.UnroutedLanguage | NLP/Document_Extractor/general_extractor.py:32-41 | a language without a routine leaves the five routine fields `None` |
| CreditExtractor.SearchHelpers | nlp/document-extractor-nlp/credit_extractor.py:140-154 | text and percentage are `None` exactly when the search misses; money and date are `None` when it misses and, on a match, exactly when `normalize_money` or `normalize_date` rejects group 1; a percentage ends in " %" with no comma; money is a money string |
| CreditExtractor.NoSeparators | nlp/document-extractor-nlp/credit_extractor.py:105 | the card number holds no '-' and no ' ' |
| CreditExtractor.FillCardAndRate | nlp/document-extractor-nlp/credit_extractor.py:95-114 | card number, limit, labelled rate, then the savings-rate override |
| CreditExtractor.FillFallback | nlp/document-extractor-nlp/credit_extractor.py:130-134 | the currency fallback, only over an empty `new_balance` |
| CreditExtractor.CommonCreditFields | nlp/document-extractor-nlp/credit_extractor.py:92-136 | each field in turn, then the falsy entries dropped |
| CreditExtractor.AssembleShape | nlp/document-extractor-nlp/credit_extractor.py:92-135 | only credit keys; a savings rate overrides the labelled rate; the card number is present exactly when found |
| CreditExtractor.AssembleNewBalance | nlp/document-extractor-nlp/credit_extractor.py:128-134 | a non-empty labelled balance stays; without it the fallback's value, or `None` |
| CreditExtractor.TruthyAssembleShape | nlp/document-extractor-nlp/credit_extractor.py:136 | after the filter every value is truthy and under a credit key |
| CreditExtractor.TruthyAssembleCard | nlp/document-extractor-nlp/credit_extractor.py:103-105 | a card number in the result is the one found, separators removed |
| CreditExtractor.TruthyAssembleSavings | nlp/document-extractor-nlp/credit_extractor.py:113-114 | a non-empty savings rate is the interest rate of the result |
| CreditExtractor.TruthyAssembleNewBalance | nlp/document-extractor-nlp/credit_extractor.py:128-136 | a labelled balance survives the filter; without it and without a fallback the key is absent |
| CreditExtractor.CommonCreditTruthy | nlp/document-extractor-nlp/credit_extractor.py:136 | the common routine returns truthy values under credit keys only |
| CreditExtractor.CommonCreditShape | nlp/document-extractor-nlp/credit_extractor.py:92-136 | truthy values under credit keys only; the card number holds no separator; a savings rate is the interest rate |
| CreditExtractor.NewBalanceFallback | nlp/document-extractor-nlp/credit_extractor.py:128-134 | a labelled balance wins; with neither it nor the fallback, `new_balance` is absent |
| CreditExtractor.LoanShape | nlp/document-extractor-nlp/credit_extractor.py:59-66 | the loan dictionary always has exactly its six keys |
| CreditExtractor.LoanFieldsShape | nlp/document-extractor-nlp/credit_extractor.py:59-66 | the loan searches give exactly the six loan keys |
| CreditExtractor.ExtractCreditFr | nlp/document-extractor-nlp/credit_extractor.py:42-66 | the card fields when any is truthy, the loan fields otherwise |
| CreditExtractor.FrenchTwoTier | nlp/document-extractor-nlp/credit_extractor.py:55-66 | a non-empty card result is returned as is; an empty one gives the six-key loan dictionary |
| CreditExtractor.TwoTier | nlp/document-extractor-nlp/credit_extractor.py:55-59 | `any(values)` over truthy values is non-emptiness, so the choice is card when non-empty, loan otherwise |
| CreditExtractor.TruthyNonEmpty | nlp/document-extractor-nlp/credit_extractor.py:55 | a dictionary of truthy values has a truthy value exactly when it is non-empty |
| CreditExtractor.ExtractCreditFields | nlp/document-extractor-nlp/credit_extractor.py:4-13 | the handler of the language, the English one otherwise |
| CreditExtractor.CreditKeys | nlp/document-extractor-nlp/credit_extractor.py:4-136 | every key of the credit result, in every language, is a credit field |
| PersonalAccountExtractor.PreprocessOcrText | nlp/document-extractor-nlp/personal_account_extractor.py:78-88 | each correction applied to the whole text in turn |
| PersonalAccountExtractor.ApplyAllSkipsIdentity | nlp/document-extractor-nlp/personal_account_extractor.py:86-87 | a replacement of a string by itself can be dropped from the list |
| PersonalAccountExtractor.PreprocessIdentityEntry | nlp/document-extractor-nlp/personal_account_extractor.py:83 | the "Relevé" entry is an identity: the corrections amount to the other four |
| PersonalAccountExtractor.PreprocessWithoutMisreads | nlp/document-extractor-nlp/personal_account_extractor.py:79-88 | a text without '0' or '1' passes through unchanged |
| PersonalAccountExtractor.LabelPats | nlp/document-extractor-nlp/personal_account_extractor.py:108 | a language outside the table gets no label pattern |
| PersonalAccountExtractor.MatchPatterns | nlp/document-extractor-nlp/personal_account_extractor.py:97-104 | the first pattern that matches decides; balances go through `normalize_amount` |
| PersonalAccountExtractor.LabelledSpec | nlp/document-extractor-nlp/personal_account_extractor.py:107-111 | after the label loop a field is present exactly when listed with a kept value, and it holds that value |
| PersonalAccountExtractor.Chunks | nlp/document-extractor-nlp/personal_account_extractor.py:118 | blocks of four, only the last one shorter |
| PersonalAccountExtractor.RegroupRoundTrip | nlp/document-extractor-nlp/personal_account_extractor.py:117-118 | removing the spaces of the regrouped IBAN gives the compact IBAN back |
| PersonalAccountExtractor.PeriodOfSpec | nlp/document-extractor-nlp/personal_account_extractor.py:127-128 | two dates are joined by the dash exactly when both are present |
| PersonalAccountExtractor.CountOverdraft | nlp/document-extractor-nlp/personal_account_extractor.py:146-155 | a non-empty overdraft table decides the count; an empty one defers to the date-amount pairs |
| PersonalAccountExtractor.CountTable | nlp/document-extractor-nlp/personal_account_extractor.py:134-143 | without an overdraft table, table rows beyond the header are counted; else, with two or more, transaction lines beyond the first |
| PersonalAccountExtractor.CountZero | nlp/document-extractor-nlp/personal_account_extractor.py:131-155 | the count is zero exactly when no stage found anything beyond a header and no date-amount pair exists |
| PersonalAccountExtractor.CountTransactions | nlp/document-extractor-nlp/personal_account_extractor.py:131-155 | the four counting stages in order |
| PersonalAccountExtractor.FillLabels | nlp/document-extractor-nlp/personal_account_extractor.py:107-111 | the label loop over the table's fields |
| PersonalAccountExtractor.FillStatementPeriod | nlp/document-extractor-nlp/personal_account_extractor.py:122-128 | the period fallback only when the period is empty |
| PersonalAccountExtractor.FillAccountNumber | nlp/document-extractor-nlp/personal_account_extractor.py:114-119 | the IBAN fallback only when the account number is empty |
| PersonalAccountExtractor.InferStatementPeriod | nlp/document-extractor-nlp/personal_account_extractor.py:123-128 | the first two numeric dates, both normalised, joined by the dash |
| PersonalAccountExtractor.ExtractPersonalAccountFields | nlp/document-extractor-nlp/personal_account_extractor.py:91-158 | preprocessing, labels, IBAN, period, then the count |
| PersonalAccountExtractor.AssembleShape | nlp/document-extractor-nlp/personal_account_extractor.py:107-155 | only account keys, the count always present, the other kept values truthy |
| PersonalAccountExtractor.AssembleKeeps | nlp/document-extractor-nlp/personal_account_extractor.py:110-111 | a truthy labelled value other than the count is kept as it is |
| PersonalAccountExtractor.AssembleLabelOnly | nlp/document-extractor-nlp/personal_account_extractor.py:107-111 | a field without a fallback is present exactly when the labels gave it |
| PersonalAccountExtractor.AssembleIban | nlp/document-extractor-nlp/personal_account_extractor.py:114-119 | without a labelled account number the field is the IBAN value when there is one |
| PersonalAccountExtractor.AssemblePeriod | nlp/document-extractor-nlp/personal_account_extractor.py:122-128 | without a labelled period the field is the fallback period when there is one |
| PersonalAccountExtractor.LabelledAt | nlp/document-extractor-nlp/personal_account_extractor.py:107-111 | the label loop's verdict on one field of the table |
| PersonalAccountExtractor.LabelledShape | nlp/document-extractor-nlp/personal_account_extractor.py:107-111 | the labelled dictionary holds table keys with truthy values |
| PersonalAccountExtractor.PeriodValueSpec | nlp/document-extractor-nlp/personal_account_extractor.py:123-128 | the fallback period exists exactly when two numeric dates both normalise, and is "start – end" |
| PersonalAccountExtractor.PersonalAccountShape | nlp/document-extractor-nlp/personal_account_extractor.py:91-158 | `transaction_number` is always present and is the staged count; only account keys; values other than the account number and the count are truthy |
| PersonalAccountExtractor.LabelWins | nlp/document-extractor-nlp/personal_account_extractor.py:107-119 | a field the labels give keeps that value; the fallbacks do not override it |
| PersonalAccountExtractor.BalanceValue | nlp/document-extractor-nlp/personal_account_extractor.py:103 | a balance found by its labels ends in the euro suffix |
| PersonalAccountExtractor.LabelOnly | nlp/document-extractor-nlp/personal_account_extractor.py:107-111 | the account type and the balances are present exactly when their label value is kept |
| PersonalAccountExtractor.UnlistedLanguage | nlp/document-extractor-nlp/personal_account_extractor.py:108 | a language outside the table yields no key other than the account number, the period and the count |
| PersonalAccountExtractor.IbanFallback | nlp/document-extractor-nlp/personal_account_extractor.py:114-119 | without a labelled account number: no IBAN match, no account number; otherwise the compact IBAN regrouped in blocks of four, whose spaces removed give the compact IBAN back |
| PersonalAccountExtractor.PeriodFallback | nlp/document-extractor-nlp/personal_account_extractor.py:122-128 | without a labelled period the field is present exactly when two dates normalise, and is "start – end" |
| GarnishmentExtractor.DateOfPreference | nlp/document-extractor-nlp/garnishment_extractor.py:62-66 | the first date pattern wins; the second is used only when the first misses |
| GarnishmentExtractor.FindStripped | nlp/document-extractor-nlp/garnishment_extractor.py:52-54 | one search, group 1 stripped |
| GarnishmentExtractor.FindDebtor | nlp/document-extractor-nlp/garnishment_extractor.py:47-49 | the debtor, through `normalize_name`, stripped |
| GarnishmentExtractor.FindDate | nlp/document-extractor-nlp/garnishment_extractor.py:62-66 | the two date searches in order |
| GarnishmentExtractor.ExtractGermanCourtOrder | nlp/document-extractor-nlp/garnishment_extractor.py:35-68 | debtor, creditor, court and date written when found |
| GarnishmentExtractor.CourtLeavesOthers | nlp/document-extractor-nlp/garnishment_extractor.py:35-68 | the court-order routine writes only debtor, creditor, authority and date |
| GarnishmentExtractor.FindAmount | nlp/document-extractor-nlp/garnishment_extractor.py:93-95 | the amount through `normalize_money(..., "de")` |
| GarnishmentExtractor.FindGroup | nlp/document-extractor-nlp/garnishment_extractor.py:114-116 | a search kept as its unstripped group 1 |
| GarnishmentExtractor.FindAuthority | nlp/document-extractor-nlp/garnishment_extractor.py:105-111 | the three authority searches in order, group 1 stripped |
| GarnishmentExtractor.ExtractGermanEnforcementOrder | nlp/document-extractor-nlp/garnishment_extractor.py:71-120 | the six searches, then each field written |
| GarnishmentExtractor.EnforcementDuration | nlp/document-extractor-nlp/garnishment_extractor.py:114-118 | the duration is always written, `None` exactly when not found; no new key |
| GarnishmentExtractor.AuthorityOrder | nlp/document-extractor-nlp/garnishment_extractor.py:105-111 | the authority comes from the first of the three patterns that matches; none when none matches |
| GarnishmentExtractor.AuthorityUnrolled | nlp/document-extractor-nlp/garnishment_extractor.py:105-111 | the authority, pattern by pattern |
| GarnishmentExtractor.LanguageSpecificExtraction | nlp/document-extractor-nlp/garnishment_extractor.py:123-143 | the dictionary comes back unchanged in every language |
| GarnishmentExtractor.ExtractGarnishmentFields | nlp/document-extractor-nlp/garnishment_extractor.py:5-32 | the six `None` fields, then the dispatch on the two signatures |
| GarnishmentExtractor.GarnishmentShape | nlp/document-extractor-nlp/garnishment_extractor.py:5-32 | every result has exactly the six garnishment keys |
| GarnishmentExtractor.NoSignature | nlp/document-extractor-nlp/garnishment_extractor.py:30-32 | without either signature every field is `None` |
| GarnishmentExtractor.CourtOrderFields | nlp/document-extractor-nlp/garnishment_extractor.py:26-27 | a court order never has an amount or a duration and takes precedence |
| GarnishmentExtractor.EnforcementOrderDuration | nlp/document-extractor-nlp/garnishment_extractor.py:28-29 | an enforcement order's duration is `None` exactly when no duration matches, else group 1 |
| InvestmentExtractor.AssetLines | nlp/document-extractor-nlp/investment_extractor.py:69 | the count is at most the number of lines |
| InvestmentExtractor.AssetLinesAppend | nlp/document-extractor-nlp/investment_extractor.py:69 | counting two runs of lines adds their counts |
| InvestmentExtractor.AssetLinesExtremes | nlp/document-extractor-nlp/investment_extractor.py:69 | zero exactly when no line names an asset; all lines exactly when every line does |
| InvestmentExtractor.SectionAssets | nlp/document-extractor-nlp/investment_extractor.py:68-69 | a section matched by `(?:.+\n?){1,10}` counts at most ten assets |
| InvestmentExtractor.ExtractCommonInvestment | nlp/document-extractor-nlp/investment_extractor.py:32-74 | value, id, risk profile and asset count |
| InvestmentExtractor.CommonShape | nlp/document-extractor-nlp/investment_extractor.py:43-74 | only investment keys; the asset count present exactly when positive |
| InvestmentExtractor.CommonAssets | nlp/document-extractor-nlp/investment_extractor.py:66-71 | `asset_number` is present exactly when a section line names an asset, is that count, and is 1 to 10 for a well-formed section |
| InvestmentExtractor.ExtractInvestmentDe | nlp/document-extractor-nlp/investment_extractor.py:78-92 | the common routine with the German table |
| InvestmentExtractor.ExtractInvestmentEs | nlp/document-extractor-nlp/investment_extractor.py:124-138 | the common routine with the Spanish table |
| InvestmentExtractor.AddFrenchFields | nlp/document-extractor-nlp/investment_extractor.py:110-119 | the account number, then the maturity fallback |
| InvestmentExtractor.ExtractInvestmentFr | nlp/document-extractor-nlp/investment_extractor.py:94-122 | the common routine, then the French additions |
| InvestmentExtractor.FrenchAccountNumber | nlp/document-extractor-nlp/investment_extractor.py:111-112 | an account number always becomes the id; otherwise the common id stands |
| InvestmentExtractor.FrenchMaturityFallback | nlp/document-extractor-nlp/investment_extractor.py:115-119 | the maturity amount fills the value only when it is absent or falsy; nothing else changes |
| InvestmentExtractor.FrenchShape | nlp/document-extractor-nlp/investment_extractor.py:104-122 | only investment keys; a found account number is the id, without whitespace |
| InvestmentExtractor.PensionNotation | nlp/document-extractor-nlp/investment_extractor.py:163 | the Italian "a.b,c" is read as the number "ab.c" |
| InvestmentExtractor.CdPrefixed | nlp/document-extractor-nlp/investment_extractor.py:173 | the certificate id always starts "CD-" and is the id or "CD-" and the id |
| InvestmentExtractor.CdPrefixIdempotent | nlp/document-extractor-nlp/investment_extractor.py:173 | prefixing is idempotent, and an id is unchanged exactly when it already has the prefix |
| InvestmentExtractor.ExtractInvestmentIt | nlp/document-extractor-nlp/investment_extractor.py:140-190 | the Italian steps in order |
| InvestmentExtractor.ItalianId | nlp/document-extractor-nlp/investment_extractor.py:168-173 | the reference number wins; a certificate id carries "CD-"; an id exactly when either is found |
| InvestmentExtractor.ItalianValue | nlp/document-extractor-nlp/investment_extractor.py:162-177 | a certificate value replaces the pension value; a value exactly when either is found |
| InvestmentExtractor.ItalianShape | nlp/document-extractor-nlp/investment_extractor.py:150-190 | investment keys and the customer name (exactly when the holder is found); no asset count |
| InvestmentExtractor.ExtractInvestmentEn | nlp/document-extractor-nlp/investment_extractor.py:192-219 | the English steps in order |
| InvestmentExtractor.EnglishShape | nlp/document-extractor-nlp/investment_extractor.py:202-219 | the asset count is always 5; no risk profile; the value is "$" and group 1 exactly when found |
| InvestmentExtractor.ExtractInvestmentFields | nlp/document-extractor-nlp/investment_extractor.py:4-28 | the language's handler, the English one otherwise |
| InvestmentExtractor.UnlistedLanguage | nlp/document-extractor-nlp/investment_extractor.py:25 | a language without a handler is read by the English handler |
| InvestmentExtractor.InvestmentShape | nlp/document-extractor-nlp/investment_extractor.py:4-28 | only investment keys plus the Italian customer name; any asset count is a positive integer |
| ExtractorUtils.DetectLanguage | nlp/document-extractor-nlp/extractor_utils.py:48-54 | a supported code as detected, "unsupported" for another code, "unknown" exactly when detection fails |
| ExtractorUtils.NoUnknownKeyword | nlp/document-extractor-nlp/extractor_utils.py:12-21 | "unknown" has no keywords |
| ExtractorUtils.FirstTypeWithHit | nlp/document-extractor-nlp/extractor_utils.py:60-63 | the scan returns the first type with a keyword in the text, "unknown" exactly when there is none |
| ExtractorUtils.ClassifyFirstHit | nlp/document-extractor-nlp/extractor_utils.py:57-63 | the classifier answers the first type in table order with a keyword in the lower-cased text, "unknown" exactly when none |
| ExtractorUtils.AccountNumberNeverMatches | nlp/document-extractor-nlp/extractor_utils.py:20 | the keyword "Account Number" never occurs in the lower-cased text |
| ExtractorUtils.GarnishmentFirst | nlp/document-extractor-nlp/extractor_utils.py:13-21 | a garnishment keyword decides the type whatever else the text holds |
| ExtractorUtils.InvestmentBeforeCredit | nlp/document-extractor-nlp/extractor_utils.py:13-21 | without a garnishment keyword an investment keyword beats the credit and account keywords |
| ExtractorUtils.StructureExtractedFields | nlp/document-extractor-nlp/extractor_utils.py:66-102 | the grouping loop and the debug fallback |
| ExtractorUtils.GroupedContents | nlp/document-extractor-nlp/extractor_utils.py:89-96 | the loop keeps exactly the non-empty sections it visited, each with its data |
| ExtractorUtils.GroupedHasNoDebug | nlp/document-extractor-nlp/extractor_utils.py:89-96 | the grouping loop never produces the debug section |
| ExtractorUtils.SectionDataKeys | nlp/document-extractor-nlp/extractor_utils.py:91-94 | a section holds exactly its keys present with a value other than `None` |
| ExtractorUtils.SchemaSection | nlp/document-extractor-nlp/extractor_utils.py:89-96 | a schema section is in the output exactly when its data is non-empty |
| ExtractorUtils.DebugSectionWhenEmpty | nlp/document-extractor-nlp/extractor_utils.py:99-100 | the debug section appears exactly when every schema section is empty, and then alone, holding every non-`None` field |
| ExtractorUtils.StructuredContents | nlp/document-extractor-nlp/extractor_utils.py:66-102 | the whole grouped output, section by section and key by key |
| ExtractorUtils.StatementPeriodInBoth | nlp/document-extractor-nlp/extractor_utils.py:75-86 | a `statement_period` appears in both the account and the credit section |
| Inference.Rank | nlp/document-extractor-nlp/field_based_inference.py:8-24 | the position of a scored type in table order |
| Inference.Score | nlp/document-extractor-nlp/field_based_inference.py:29 | at most the number of keys, zero exactly when none is truthy |
| Inference.ScoreVector | nlp/document-extractor-nlp/field_based_inference.py:27-29 | one score per type, in table order |
| Inference.Scores | nlp/document-extractor-nlp/field_based_inference.py:27-29 | the scoring loop computes each type's score |
| Inference.MaxFrom | nlp/document-extractor-nlp/field_based_inference.py:32 | the scan keeps the first position of the largest score |
| Inference.FirstMax | nlp/document-extractor-nlp/field_based_inference.py:32 | `max(scores, key=...)`: a largest score, strictly larger than every earlier one |
| Inference.FirstMaxUnique | nlp/document-extractor-nlp/field_based_inference.py:32 | those two properties single out the position |
| Inference.LanguageOf | nlp/document-extractor-nlp/field_based_inference.py:37 | `.lower()` raises exactly when the language is present and not a string |
| Inference.InferDocumentType | nlp/document-extractor-nlp/field_based_inference.py:4-58 | the scores, the maximum, the language rules, then the classifier |
| Inference.ScoreDecides | nlp/document-extractor-nlp/field_based_inference.py:32-34 | with a positive score the result is the first type holding the largest score |
| Inference.ZeroScoresFallBack | nlp/document-extractor-nlp/field_based_inference.py:36-58 | with all scores zero the language rules decide, then the classifier; a non-string language raises |
| Inference.SpanishOutstandingBalance | nlp/document-extractor-nlp/field_based_inference.py:40-41 | Spanish text with "saldo pendiente" and no scored field is credit |
| Inference.StringLanguageOk | nlp/document-extractor-nlp/field_based_inference.py:37 | a string language, or none, never raises |
| Inference.ScoreKeepsOut | nlp/document-extractor-nlp/field_based_inference.py:29 | setting an unlisted key leaves the score unchanged |
| Inference.ScoreRaises | nlp/document-extractor-nlp/field_based_inference.py:29 | making one listed key truthy raises the score by exactly one |
| Inference.ScoreKeysDistinct | nlp/document-extractor-nlp/field_based_inference.py:8-24 | no list repeats a key |
| Inference.CreditKeysDistinct | nlp/document-extractor-nlp/field_based_inference.py:9-12 | the credit list repeats no key |
| Inference.AccountKeysDistinct | nlp/document-extractor-nlp/field_based_inference.py:13-16 | the account list repeats no key |
| Inference.GarnishmentKeysDistinct | nlp/document-extractor-nlp/field_based_inference.py:17-20 | the garnishment list repeats no key |
| Inference.InvestmentKeysDistinct | nlp/document-extractor-nlp/field_based_inference.py:21-23 | the investment list repeats no key |
| Inference.KeyOwner | nlp/document-extractor-nlp/field_based_inference.py:8-24 | a key is listed only under the type it is scored for |
| Inference.ListedKeyOwner | nlp/document-extractor-nlp/field_based_inference.py:8-24 | each listed key belongs to its list's type |
| Inference.ScoresAfterUpdate | nlp/document-extractor-nlp/field_based_inference.py:27-29 | a new truthy key of type t raises t's score by one and no other |
| Inference.OtherKeysOut | nlp/document-extractor-nlp/field_based_inference.py:8-24 | the score lists share no key |
| Inference.ChosenHasMaxScore | nlp/document-extractor-nlp/field_based_inference.py:32-58 | a chosen type, by score or by fallback, holds the largest score |
| Inference.IncrementMax | nlp/document-extractor-nlp/field_based_inference.py:32 | raising a largest score makes it the first maximum |
| Inference.VectorAfterUpdate | nlp/document-extractor-nlp/field_based_inference.py:27-29 | the score vector after a new truthy key differs in one place, by one |
| Inference.ScoreAt | nlp/document-extractor-nlp/field_based_inference.py:27-29 | the score vector after a new truthy key, position by position |
| Inference.MoreEvidenceKeepsChoice | nlp/document-extractor-nlp/field_based_inference.py:4-58 | one more truthy field of the chosen type keeps that choice |
| DocumentExtractor.FilterFieldsByType | nlp/document-extractor-nlp/document_extractor.py:55-63 | valid general entries, then the type's keys one by one |
| DocumentExtractor.ValidityEdges | nlp/document-extractor-nlp/document_extractor.py:28-30 | only `None`, "" and " " are invalid; two spaces, a tab and 0 are valid |
| DocumentExtractor.FilterKeeps | nlp/document-extractor-nlp/document_extractor.py:55-63 | the filter keeps a key exactly when it is listed for the type with a valid value, and keeps the value |
| DocumentExtractor.FilterIdempotent | nlp/document-extractor-nlp/document_extractor.py:55-63 | filtering twice with the same type is filtering once |
| DocumentExtractor.FilterUnknown | nlp/document-extractor-nlp/document_extractor.py:58 | for a type outside the table only general keys survive |
| DocumentExtractor.SectionsPartition | nlp/document-extractor-nlp/document_extractor.py:104-112 | "general" and the type section partition the filtered keys and keep their values |
| DocumentExtractor.MergeFields | nlp/document-extractor-nlp/document_extractor.py:85-91 | the general fields updated by the four domain results in order |
| DocumentExtractor.ProcessDocument | nlp/document-extractor-nlp/document_extractor.py:82-112 | language, merge, inference, type and language written, filter, grouping |
| DocumentExtractor.PartsWellKeyed | nlp/document-extractor-nlp/document_extractor.py:85-91 | each extractor stays within its keys and the general id is the match or the fresh id |
| DocumentExtractor.MergeOrder | nlp/document-extractor-nlp/document_extractor.py:88-91 | the id and language come from the general fields; the account period beats the credit period; the investment name beats the general one; garnishment keys are never overridden |
| DocumentExtractor.MergeAt | nlp/document-extractor-nlp/document_extractor.py:88-91 | each merged key holds the value of the last part that has it |
| DocumentExtractor.PipelineOutput | nlp/document-extractor-nlp/document_extractor.py:94-112 | inference never raises; "general" holds the type name and the language; the id is present exactly when valid; the type section holds only the type's keys |
| DocumentExtractor.ProcessOutput | nlp/document-extractor-nlp/document_extractor.py:82-112 | every text gives an output with the type name and the detected language in "general", the id present exactly when valid, and only the type's keys in the type section |
| DocumentExtractor.DetectedValid | nlp/document-extractor-nlp/document_extractor.py:82 | the detected language is never blank |
| DocumentExtractor.DocumentIdPresent | nlp/document-extractor-nlp/document_extractor.py:85-112 | with a non-blank identifier the output's "general" always holds the document id |

## Left out

- I/O is not modelled: PDF text extraction and the OCR fallback (`extract_text_from_pdf`), the `outputs` directory, the JSON file, the `file_name` entry (`os.path.basename`), the command line and every `print`. The text is a parameter of `ProcessDocument`.
- `uuid.uuid4()` is the parameter `freshId`.
- The regex engine, `unicodedata` accent stripping and `langdetect` are uninterpreted (`Oracle.Oracles`). No property depends on what a pattern matches, beyond the three facts of `Oracle.Engine`.
- The stored date regexes of `normalize.py` (lines 37, 39 and 41) hold the reversed character range U+0496 to U+0413, which Python's `re` rejects when compiling. As stored, every call of `normalize_date` raises `re.error` on its first pattern. That reaches every date path: the general routines, the credit `_search_date`, the garnishment dates and the personal-account period. Patterns are uninterpreted here, so `NormalizeDate` and every date the model produces describe the patterns as intended, not that error.
- Normalize.Fixed2: does not model binary floating point. `f"{float(s):.2f}"` keeps the first two fraction digits of the decimal text (truncation), where Python rounds the nearest binary float. Exponents, `inf` and `nan` are not accepted by `Normalize.ParseDecimal`.
- The Italian pension value is kept as the decimal string `float()` is given (`Value.Dec`), not as a binary float. Its truthiness is "holds a non-zero digit".
- Case mapping (`Text.LowerChar`, `Text.UpperChar`) covers ASCII, Latin-1 and basic Cyrillic only. Python's full Unicode tables are not modelled. Within Latin-1, the ordinal indicators ª (U+00AA) and º (U+00BA) are modelled as cased lower-case letters without an upper case, as in Python; three lower-case letters are left unchanged by `Text.UpperChar`, so `Text.Capitalize` and `Text.Title` differ from Python on them: ß (U+00DF, Python gives "SS", title case "Ss"), ÿ (U+00FF, Python gives U+0178) and µ (U+00B5, Python gives U+039C).
- Digits are ASCII '0' to '9' only (`Text.IsDigit`, `Text.DigitsValue`, `Normalize.ParseDecimal`, and the day group assumed by `Oracle.Engine`). Python's `\d`, `int()` and `float()` also accept the other Unicode decimal digits, for example Arabic-Indic "١٢٣". On such a run `normalize_money` returns "123.00" plus the suffix where `Normalize.NormalizeMoney` returns `None`, and the model says nothing about such a day group.
- Normalize.ParseDecimal: accepts ASCII digits only, so it rejects a run of other Unicode decimal digits that Python's `float()` accepts (see the line above).
- The `or "unknown"` on `detect_language` is a no-op, because the function never returns a falsy value. `DetectLanguage` reflects that.
- The Italian investment handler's `pension_id_match` and `pension_value_match` searches are never read. Searches are pure, so they are not modelled.
- The two guarded customer-id blocks of `extract_general_it` are one function (`ItalianIdOf`) applied under the same guard.
- GeneralExtractor.FillGermanDate: requires the date to be unset. The source's `if date_match:` reads a variable that only the guarded block assigns, so a set date would raise `NameError`. The only caller always passes `None`.
- GeneralExtractor.GermanDateRule: requires that a numeric-date match captures digit groups as `\d{1,2}` and `\d{4}` do. The engine is otherwise uninterpreted.
- DocumentExtractor.DocumentIdPresent: requires that the identifier match and the fresh identifier are non-blank. A `uuid4` string always is, and `[A-Z]{2,5}…` guarantees it for the match, but the uninterpreted engine does not.
- DocumentExtractor.PipelineOutput: states the language entry only for a non-blank language. `ProcessOutput` closes the gap for the detected language.
