/** The middle of `process_document`: the general fields merged with the four domain results,
    the document type inferred and written back, the language re-set, the filter by type, and
    the grouping of what is kept into the "general" section and the section of the type. */
module DocumentExtractor {
  import opened Fields
  import opened Oracle
  import ExtractorUtils
  import Inference
  import GeneralExtractor
  import CreditExtractor
  import InvestmentExtractor
  import PersonalAccountExtractor
  import GarnishmentExtractor

  // ================================================================ the filter

  /** A key the filter keeps for type `t`: a general key, or one of the type's keys (none for
      `Unknown`, which has no entry in the table). */
  predicate Listed(k: Key, t: DocType) {
    IsGeneral(k) || k in TypeKeys(t)
  }

  /** What `filter_fields_by_type(fields, doc_type)` returns: the listed entries whose value is
      valid, each value as it was. */
  function Filtered(fields: Fields, t: DocType): Fields {
    map k | k in fields && Listed(k, t) && IsValid(fields[k]) :: fields[k]
  }

  /** `filter_fields_by_type`: the valid general entries first, then the type's keys one by
      one. */
  method FilterFieldsByType(fields: Fields, t: DocType) returns (r: Fields)
    ensures r == Filtered(fields, t)
  {
    r := map k | k in fields && IsGeneral(k) && IsValid(fields[k]) :: fields[k];
    var typeFields := TypeKeys(t);
    for i := 0 to |typeFields|
      invariant forall k :: k in r <==>
        k in fields && (IsGeneral(k) || k in typeFields[..i]) && IsValid(fields[k])
      invariant forall k :: k in r ==> r[k] == fields[k]
    {
      var field := typeFields[i];
      assert typeFields[..i + 1] == typeFields[..i] + [field];
      if field in fields && IsValid(fields[field]) {
        r := r[field := fields[field]];
      }
    }
    assert typeFields[..|typeFields|] == typeFields;
    assert r.Keys == Filtered(fields, t).Keys;
  }

  /** Only `None`, "" and a single space are blank: other whitespace and the integer 0 are
      kept. */
  lemma ValidityEdges()
    ensures !IsValid(Null) && !IsValid(Str("")) && !IsValid(Str(" "))
    ensures IsValid(Str("  ")) && IsValid(Str("\t")) && IsValid(Int(0))
  {
  }

  /** The filter only drops entries: what it keeps is listed, valid and unchanged, and a
      listed valid entry is always kept. */
  lemma FilterKeeps(fields: Fields, t: DocType, k: Key)
    ensures k in Filtered(fields, t) ==>
      k in fields && Filtered(fields, t)[k] == fields[k] && Listed(k, t) && IsValid(fields[k])
    ensures k in fields && Listed(k, t) && IsValid(fields[k]) ==> k in Filtered(fields, t)
  {
  }

  /** Filtering an already-filtered dictionary with the same type changes nothing. */
  lemma FilterIdempotent(fields: Fields, t: DocType)
    ensures Filtered(Filtered(fields, t), t) == Filtered(fields, t)
  {
    var once := Filtered(fields, t);
    assert Filtered(once, t).Keys == once.Keys;
  }

  /** For a type outside the table only general keys survive. */
  lemma FilterUnknown(fields: Fields)
    ensures forall k :: k in Filtered(fields, Unknown) ==> IsGeneral(k)
  {
  }

  // ================================================================ grouping

  /** The grouped output without its file name: the "general" section, the inferred type and
      the section named after it. */
  datatype Output = Output(general: Fields, docType: DocType, section: Fields)

  /** The grouping of `process_document`: the general keys in "general", every other key in
      the section of the type. */
  function Sections(filtered: Fields, t: DocType): Output {
    Output(map k | k in filtered && IsGeneral(k) :: filtered[k], t,
           map k | k in filtered && !IsGeneral(k) :: filtered[k])
  }

  /** The two sections partition the filtered keys, and every value is the filtered one. */
  lemma SectionsPartition(filtered: Fields, t: DocType)
    ensures var out := Sections(filtered, t);
      out.general.Keys + out.section.Keys == filtered.Keys
      && out.general.Keys !! out.section.Keys
      && (forall k :: k in out.general ==> IsGeneral(k) && out.general[k] == filtered[k])
      && (forall k :: k in out.section ==> !IsGeneral(k) && out.section[k] == filtered[k])
  {
  }

  // ================================================================ the pipeline

  /** The domain keys each extractor can write: the investment extractor adds `customer_name`
      for Italian. */
  const CreditKeys: set<Key> := CreditExtractor.CardKeys
  const InvestmentKeys: set<Key> := InvestmentExtractor.InvestmentKeys + {CustomerName}
  const AccountKeys: set<Key> := PersonalAccountExtractor.AccountKeys
  const GarnishmentKeys: set<Key> := GarnishmentExtractor.GarnishmentKeys

  /** The five dictionaries `process_document` merges. */
  datatype Parts = Parts(general: Fields, credit: Fields, investment: Fields, account: Fields,
                         garnishment: Fields)

  /** What the five extractors return for a text in a language (no type hint for the general
      extractor). */
  function PartsOf(o: Engine, text: string, lang: string, freshId: string): Parts {
    Parts(GeneralExtractor.GeneralFields(o, text, lang, None, freshId),
          CreditExtractor.CreditFields(o, text, lang),
          InvestmentExtractor.InvestmentFields(o, text, lang),
          PersonalAccountExtractor.PersonalAccountFields(o, text, lang),
          GarnishmentExtractor.GarnishmentFields(o, text, lang))
  }

  /** The merge of `process_document`: the general fields updated by the credit, investment,
      personal-account and garnishment results, in that order. */
  function Merge(p: Parts): Fields {
    p.general + p.credit + p.investment + p.account + p.garnishment
  }

  /** Steps 3 and 4 of `process_document`: the general fields, then each `update`. */
  method MergeFields(o: Engine, text: string, lang: string, freshId: string)
    returns (fields: Fields)
    ensures fields == Merge(PartsOf(o, text, lang, freshId))
  {
    fields := GeneralExtractor.ExtractGeneralFields(o, text, lang, None, freshId);
    var credit := CreditExtractor.ExtractCreditFields(o, text, lang);
    fields := fields + credit;
    var investment := InvestmentExtractor.ExtractInvestmentFields(o, text, lang);
    fields := fields + investment;
    var account := PersonalAccountExtractor.ExtractPersonalAccountFields(o, text, lang);
    fields := fields + account;
    var garnishment := GarnishmentExtractor.ExtractGarnishmentFields(o, text, lang);
    fields := fields + garnishment;
  }

  /** The dictionary the filter sees: the merged fields with the inferred type and the
      language written over them. */
  function Typed(merged: Fields, t: DocType, lang: string): Fields {
    merged[DocumentType := Str(TypeName(t))][Language := Str(lang)]
  }

  /** Steps 5 to 8 on the merged parts: the raised error when inference raises, the grouped
      output otherwise. */
  function Pipeline(p: Parts, lang: string, text: string): Result<Output> {
    var merged := Merge(p);
    match Inference.Inferred(merged, text)
    case Raised(e) => Raised(e)
    case Ok(t) => Ok(Sections(Filtered(Typed(merged, t, lang), t), t))
  }

  /** What `process_document` writes for a text, without the file name. */
  function Processed(o: Engine, text: string, freshId: string): Result<Output> {
    var lang := ExtractorUtils.DetectLanguage(o, text);
    Pipeline(PartsOf(o, text, lang, freshId), lang, text)
  }

  /** Steps 2 to 8 of `process_document`; the text and the fresh identifier are given. */
  method ProcessDocument(o: Engine, text: string, freshId: string) returns (r: Result<Output>)
    ensures r == Processed(o, text, freshId)
  {
    var language := ExtractorUtils.DetectLanguage(o, text);
    var fields := MergeFields(o, text, language, freshId);
    var inferred := Inference.InferDocumentType(fields, text);
    if inferred.Raised? {
      return Raised(inferred.error);
    }
    var inferredType := inferred.value;
    fields := fields[DocumentType := Str(TypeName(inferredType))];
    fields := fields[Language := Str(language)];
    var filtered := FilterFieldsByType(fields, inferredType);
    var general := map k | k in filtered && IsGeneral(k) :: filtered[k];
    var section := map k | k in filtered && !IsGeneral(k) :: filtered[k];
    return Ok(Output(general, inferredType, section));
  }

  // ================================================================ properties

  /** Each domain result stays within its own keys, and the general result holds the
      identifier and the language as a string. */
  predicate WellKeyed(p: Parts, lang: string) {
    p.credit.Keys <= CreditKeys && p.investment.Keys <= InvestmentKeys
    && p.account.Keys <= AccountKeys && p.garnishment.Keys <= GarnishmentKeys
    && DocumentId in p.general && Language in p.general && p.general[Language] == Str(lang)
  }

  /** The extractors' results are well keyed, and the general identifier is the match or the
      fresh identifier. */
  lemma PartsWellKeyed(o: Engine, text: string, lang: string, freshId: string)
    ensures var p := PartsOf(o, text, lang, freshId);
      WellKeyed(p, lang)
      && p.general[DocumentId] == Str(GeneralExtractor.DocumentIdOf(o, text, freshId))
  {
    GeneralExtractor.GeneralShape(o, text, lang, None, freshId);
    CreditExtractor.CreditKeys(o, text, lang);
    InvestmentExtractor.InvestmentShape(o, text, lang);
    PersonalAccountExtractor.PersonalAccountShape(o, text, lang);
    GarnishmentExtractor.GarnishmentShape(o, text, lang);
  }

  /** The right-biased merge of well-keyed parts: the identifier and the language come from
      the general part; the personal-account period wins over the credit one; an Italian
      holder name wins over the general one; the garnishment fields are the garnishment
      part's. */
  lemma MergeOrder(p: Parts, lang: string)
    requires WellKeyed(p, lang)
    ensures var m := Merge(p);
      DocumentId in m && m[DocumentId] == p.general[DocumentId]
      && Language in m && m[Language] == Str(lang)
      && (StatementPeriod in p.account ==>
            StatementPeriod in m && m[StatementPeriod] == p.account[StatementPeriod])
      && (StatementPeriod !in p.account && StatementPeriod in p.credit ==>
            StatementPeriod in m && m[StatementPeriod] == p.credit[StatementPeriod])
      && (CustomerName in p.investment ==>
            CustomerName in m && m[CustomerName] == p.investment[CustomerName])
      && (CustomerName !in p.investment && CustomerName in p.general ==>
            CustomerName in m && m[CustomerName] == p.general[CustomerName])
      && (forall k :: k in p.garnishment ==> k in m && m[k] == p.garnishment[k])
  {
    assert DocumentId !in p.credit && DocumentId !in p.investment && DocumentId !in p.account
      && DocumentId !in p.garnishment;
    assert Language !in p.credit && Language !in p.investment && Language !in p.account
      && Language !in p.garnishment;
    assert StatementPeriod !in p.investment && StatementPeriod !in p.garnishment;
    assert CustomerName !in p.credit && CustomerName !in p.account
      && CustomerName !in p.garnishment;
    MergeAt(p, DocumentId);
    MergeAt(p, Language);
    MergeAt(p, StatementPeriod);
    MergeAt(p, CustomerName);
    forall k | k in p.garnishment
      ensures k in Merge(p) && Merge(p)[k] == p.garnishment[k]
    {
      MergeAt(p, k);
    }
  }

  /** A key of the merge holds the value of the last part that has it. */
  lemma MergeAt(p: Parts, k: Key)
    ensures k in Merge(p) <==>
      k in p.general || k in p.credit || k in p.investment || k in p.account
      || k in p.garnishment
    ensures k in Merge(p) ==>
      Merge(p)[k] ==
        if k in p.garnishment then p.garnishment[k]
        else if k in p.account then p.account[k]
        else if k in p.investment then p.investment[k]
        else if k in p.credit then p.credit[k]
        else p.general[k]
  {
    var m1 := p.general + p.credit;
    var m2 := m1 + p.investment;
    var m3 := m2 + p.account;
    assert Merge(p) == m3 + p.garnishment;
  }

  /** On well-keyed parts inference never raises, "general" holds the inferred type, the
      language, the identifier exactly when it is not blank, and only general keys; the type
      section holds only keys of the inferred type (none for `Unknown`). */
  lemma PipelineOutput(p: Parts, lang: string, text: string)
    requires WellKeyed(p, lang)
    ensures Pipeline(p, lang, text).Ok?
    ensures var out := Pipeline(p, lang, text).value;
      var id := p.general[DocumentId];
      DocumentType in out.general && out.general[DocumentType] == Str(TypeName(out.docType))
      && (IsValid(Str(lang)) ==> Language in out.general && out.general[Language] == Str(lang))
      && (DocumentId in out.general <==> IsValid(id))
      && (DocumentId in out.general ==> out.general[DocumentId] == id)
      && (forall k :: k in out.general ==> IsGeneral(k))
      && (forall k :: k in out.section ==> k in TypeKeys(out.docType))
  {
    var merged := Merge(p);
    MergeOrder(p, lang);
    Inference.StringLanguageOk(merged, text);
    var t := Inference.Inferred(merged, text).value;
    var typed := Typed(merged, t, lang);
    assert typed[DocumentId] == merged[DocumentId];
    var filtered := Filtered(typed, t);
    FilterKeeps(typed, t, DocumentType);
    FilterKeeps(typed, t, Language);
    FilterKeeps(typed, t, DocumentId);
    SectionsPartition(filtered, t);
  }

  /** `process_document` always produces an output: "general" holds the inferred type and the
      detected language, and the document identifier exactly when it is not blank; the type
      section holds only keys of the inferred type. */
  lemma ProcessOutput(o: Engine, text: string, freshId: string)
    ensures Processed(o, text, freshId).Ok?
    ensures var out := Processed(o, text, freshId).value;
      var lang := ExtractorUtils.DetectLanguage(o, text);
      var id := Str(GeneralExtractor.DocumentIdOf(o, text, freshId));
      DocumentType in out.general && out.general[DocumentType] == Str(TypeName(out.docType))
      && Language in out.general && out.general[Language] == Str(lang)
      && (DocumentId in out.general <==> IsValid(id))
      && (DocumentId in out.general ==> out.general[DocumentId] == id)
      && (forall k :: k in out.section ==> k in TypeKeys(out.docType))
  {
    var lang := ExtractorUtils.DetectLanguage(o, text);
    DetectedValid(o, text);
    var parts := PartsOf(o, text, lang, freshId);
    PartsWellKeyed(o, text, lang, freshId);
    PipelineOutput(parts, lang, text);
    assert Processed(o, text, freshId) == Pipeline(parts, lang, text);
  }

  /** The detected language is never blank. */
  lemma DetectedValid(o: Engine, text: string)
    ensures IsValid(Str(ExtractorUtils.DetectLanguage(o, text)))
  {
  }

  /** With a non-blank fresh identifier and a non-blank identifier match (the identifier
      pattern matches at least ten characters), the identifier is always in "general". */
  lemma DocumentIdPresent(o: Engine, text: string, freshId: string)
    requires IsValid(Str(freshId))
    requires o.search(DocumentIdPattern, text).Some? ==>
      IsValid(Str(o.search(DocumentIdPattern, text).value.Group(0)))
    ensures Processed(o, text, freshId).Ok?
    ensures DocumentId in Processed(o, text, freshId).value.general
  {
    ProcessOutput(o, text, freshId);
  }
}
