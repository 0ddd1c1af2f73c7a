/** The general extractor: the eight general fields, the document id from the text or a fresh
    identifier, and one routine per language that fills the date, the customer and the
    institution into the shared dictionary. */
module GeneralExtractor {
  import opened Text
  import opened Fields
  import opened Oracle
  import opened Normalize

  /** The keys the language routines may write. */
  const RoutineKeys: set<Key> :=
    {DocumentDate, CustomerName, CustomerId, InstitutionName, InstitutionAddress}

  // ================================================================ shared steps

  /** `normalize_address(raw)`: no caller passes a language, so the English corrections apply
      and the call never raises; only the empty address gives `None`. */
  function AddressOf(o: Engine, raw: string): (r: Option<string>)
    ensures AddressResult(o, raw, "en") == Ok(r)
    ensures r.None? <==> raw == []
  {
    if raw == [] then None
    else
      EnglishAddress(o, raw);
      AddressResult(o, raw, "en").value
  }

  /** `normalize_date(group 1, lang)` when the pattern matches. */
  function DateFound(o: Engine, p: Pat, text: string, lang: string): Option<Option<string>> {
    match GroupOf(o, p, text, 1)
    case None => None
    case Some(g) => Some(NormalizedDate(o, g, lang))
  }

  /** `normalize_name` of a found name. */
  function NameFound(name: Option<string>): Option<Option<string>> {
    if name.Some? then Some(NormalizeName(name.value)) else None
  }

  /** `normalize_address` of a found address. */
  function AddressFound(o: Engine, raw: Option<string>): Option<Option<string>> {
    if raw.Some? then Some(AddressOf(o, raw.value)) else None
  }

  /** `name.split(key)[0].strip()` when the lower-cased name contains `lowerKey`, the name
      itself otherwise. */
  function CutBefore(name: string, lowerKey: string, key: string): string
    requires key != []
  {
    if Contains(Lower(name), lowerKey) then Strip(PrefixBefore(name, key)) else name
  }

  /** A name that mentions the key is cut at the first occurrence of the key's spelling, and
      stripped; a name that does not is kept whole. */
  lemma CutBeforeKey(name: string, lowerKey: string, key: string)
    requires key != []
    ensures var r := CutBefore(name, lowerKey, key);
      (Contains(Lower(name), lowerKey) ==>
        exists k :: 0 <= k <= |name| && r == Strip(name[..k])
                    && (k == |name| || StartsWith(name[k..], key)))
      && (!Contains(Lower(name), lowerKey) ==> r == name)
  {
    var p := PrefixBefore(name, key);
    assert p == name[..|p|];
  }

  /** The eight general keys are all present. */
  predicate Full(d: Fields) {
    DocumentId in d && DocumentType in d && Language in d && DocumentDate in d
    && CustomerName in d && CustomerId in d && InstitutionName in d && InstitutionAddress in d
  }

  /** What a language routine keeps: the same keys, and the id, the type and the language as
      they were. */
  predicate Frame(d: Fields, r: Fields)
    requires Full(d)
  {
    r.Keys == d.Keys && r[DocumentId] == d[DocumentId] && r[DocumentType] == d[DocumentType]
    && r[Language] == d[Language]
  }

  /** One write of a routine keeps the frame, whatever the value. */
  lemma PutKeeps(d: Fields, k: Key, v: Option<string>)
    requires Full(d) && k in RoutineKeys
    ensures Full(Put(d, k, v)) && Frame(d, Put(d, k, v))
  {
  }

  lemma PutFoundKeeps(d: Fields, k: Key, v: Option<Option<string>>)
    requires Full(d) && k in RoutineKeys
    ensures Full(PutFound(d, k, v)) && Frame(d, PutFound(d, k, v))
  {
  }

  // ================================================================ German

  const DeTextDate: Pat := GeneralLabel(De, DocumentDate, 0)       // "12. März 2025"
  const DeNumericDate: Pat := GeneralLabel(De, DocumentDate, 1)    // "12.03.2025"
  const DeDebtor: Pat := GeneralLabel(De, CustomerName, 0)         // "Schuldn.: …"
  const DeName: Pat := GeneralLabel(De, CustomerName, 1)           // "Name: …"
  const DeCustomerNumber: Pat := GeneralLabel(De, CustomerId, 0)   // "Kundennummer …"
  const DeFileNumber: Pat := GeneralLabel(De, CustomerId, 1)       // "Az. …"
  const DeRepresented: Pat := GeneralLabel(De, CustomerId, 2)      // "vertreten durch … Az. …"
  const DeRecipientBold: Pat := GeneralLabel(De, InstitutionName, 0)
  const DeRecipientLines: Pat := GeneralLabel(De, InstitutionName, 1)
  const DeBank: Pat := GeneralLabel(De, InstitutionName, 2)
  const DeAddressLabel: Pat := GeneralLabel(De, InstitutionAddress, 0)
  const DeStreet: Pat := GeneralLabel(De, InstitutionAddress, 1)

  /** The numeric date with day and month zero-padded to two digits and the year verbatim. */
  function NumericDate(m: Match): string {
    ZFill(m.Group(1), 2) + "." + ZFill(m.Group(2), 2) + "." + m.Group(3)
  }

  /** The German date: a textual date through `normalize_date`, or else the numeric date. */
  function GermanDateOf(o: Engine, text: string): Option<Option<string>> {
    match o.search(DeTextDate, text)
    case Some(m) => Some(NormalizedDate(o, m.Group(1), "de"))
    case None =>
      match o.search(DeNumericDate, text)
      case None => None
      case Some(m) => Some(Some(NumericDate(m)))
  }

  function GermanDate(o: Engine, text: string, d: Fields): Fields {
    PutFound(d, DocumentDate, GermanDateOf(o, text))
  }

  /** The date block of `extract_general_de`. The block only searches when the date is unset
      and reads its match unconditionally, so a set date would raise; the only caller passes
      an unset one. */
  method FillGermanDate(o: Engine, text: string, fields: Fields) returns (r: Fields)
    requires !Has(fields, DocumentDate)
    ensures r == GermanDate(o, text, fields)
  {
    var dateMatch: Option<Match> := None;
    if !Has(fields, DocumentDate) {
      dateMatch := o.search(DeTextDate, text);
    }
    var date: Option<Option<string>> := None;
    if dateMatch.Some? {
      var normalized := NormalizeDate(o, dateMatch.value.Group(1), "de");
      date := Some(normalized);
    } else {
      var m := o.search(DeNumericDate, text);
      if m.Some? {
        date := Some(Some(ZFill(m.value.Group(1), 2) + "." + ZFill(m.value.Group(2), 2)
                          + "." + m.value.Group(3)));
      }
    }
    assert date == GermanDateOf(o, text);
    r := StoreFound(fields, DocumentDate, date);
  }

  /** The groups of a numeric-date match, as `(\d{1,2})[.\-/](\d{1,2})[.\-/](\d{4})` captures
      them. */
  predicate NumericShaped(m: Match) {
    DayShaped(m.Group(1)) && DayShaped(m.Group(2)) && |m.Group(3)| == 4 && AllDigits(m.Group(3))
  }

  /** A textual date wins; without one, a numeric date is written as "DD.MM.YYYY": ten
      characters, the day and the month zero-padded with their values kept, the year as
      found. */
  lemma GermanDateRule(o: Engine, text: string)
    requires o.search(DeNumericDate, text).Some? ==>
      NumericShaped(o.search(DeNumericDate, text).value)
    ensures o.search(DeTextDate, text).Some? ==>
      GermanDateOf(o, text) == Some(NormalizedDate(o, o.search(DeTextDate, text).value.Group(1), "de"))
    ensures o.search(DeTextDate, text).None? && o.search(DeNumericDate, text).Some? ==>
      var m := o.search(DeNumericDate, text).value;
      var r := GermanDateOf(o, text);
      r.Some? && r.value.Some? && |r.value.value| == 10
      && r.value.value[2] == '.' && r.value.value[5] == '.'
      && r.value.value[..2] == Pad2(DigitsValue(m.Group(1)))
      && r.value.value[3..5] == Pad2(DigitsValue(m.Group(2)))
      && r.value.value[6..] == m.Group(3)
    ensures o.search(DeTextDate, text).None? && o.search(DeNumericDate, text).None? ==>
      GermanDateOf(o, text).None?
  {
    var n := o.search(DeNumericDate, text);
    if o.search(DeTextDate, text).None? && n.Some? {
      var m := n.value;
      Pad2IsZFill(m.Group(1));
      Pad2IsZFill(m.Group(2));
      var r := NumericDate(m);
      assert r == ZFill(m.Group(1), 2) + "." + ZFill(m.Group(2), 2) + "." + m.Group(3);
    }
  }

  /** The German customer name: the debtor after "Schuldn.:", or else the name after "Name",
      stripped, through `normalize_name`. */
  function GermanNameOf(o: Engine, text: string): Option<Option<string>> {
    match o.search(DeDebtor, text)
    case Some(m) => Some(NormalizeName(m.Group(1)))
    case None => NameFound(Stripped(GroupOf(o, DeName, text, 1)))
  }

  function GermanName(o: Engine, text: string, d: Fields): Fields {
    if Has(d, CustomerName) then d else PutFound(d, CustomerName, GermanNameOf(o, text))
  }

  /** The customer-name block of `extract_general_de`. */
  method FillGermanName(o: Engine, text: string, fields: Fields) returns (r: Fields)
    ensures r == GermanName(o, text, fields)
  {
    r := fields;
    if !Has(r, CustomerName) {
      var name: Option<Option<string>> := None;
      var m := o.search(DeDebtor, text);
      if m.Some? {
        name := Some(NormalizeName(m.value.Group(1)));
      } else {
        m := o.search(DeName, text);
        if m.Some? {
          name := Some(NormalizeName(Strip(m.value.Group(1))));
        }
      }
      assert name == GermanNameOf(o, text);
      r := StoreFound(r, CustomerName, name);
    }
  }

  /** The German customer id: the Kundennummer, stripped; or else the "Az." number with its
      spaces removed; or else the "Az." number after "vertreten durch". */
  function GermanCustomerIdOf(o: Engine, text: string): Option<string> {
    match o.search(DeCustomerNumber, text)
    case Some(m) => Some(Strip(m.Group(1)))
    case None =>
      match o.search(DeFileNumber, text)
      case Some(m) => Some(Replace(m.Group(1), " ", ""))
      case None => GroupOf(o, DeRepresented, text, 1)
  }

  function GermanCustomerId(o: Engine, text: string, d: Fields): Fields {
    if Has(d, CustomerId) then d else Put(d, CustomerId, GermanCustomerIdOf(o, text))
  }

  /** The customer-id block of `extract_general_de`. */
  method FillGermanCustomerId(o: Engine, text: string, fields: Fields) returns (r: Fields)
    ensures r == GermanCustomerId(o, text, fields)
  {
    r := fields;
    if !Has(r, CustomerId) {
      var id: Option<string> := None;
      var m := o.search(DeCustomerNumber, text);
      if m.Some? {
        id := Some(Strip(m.value.Group(1)));
      } else {
        m := o.search(DeFileNumber, text);
        if m.Some? {
          id := Some(Replace(m.value.Group(1), " ", ""));
        } else {
          m := o.search(DeRepresented, text);
          if m.Some? {
            id := Some(m.value.Group(1));
          }
        }
      }
      assert id == GermanCustomerIdOf(o, text);
      r := Store(r, CustomerId, id);
    }
  }

  /** The first customer-id rule that matches decides; an "Az." number holds no space. */
  lemma GermanCustomerIdRule(o: Engine, text: string)
    ensures var id := GermanCustomerIdOf(o, text);
      var a := o.search(DeCustomerNumber, text);
      var b := o.search(DeFileNumber, text);
      var c := o.search(DeRepresented, text);
      (a.Some? ==> id == Some(Strip(a.value.Group(1))))
      && (a.None? && b.Some? ==>
            id == Some(Replace(b.value.Group(1), " ", "")) && ' ' !in id.value)
      && (a.None? && b.None? ==> id == GroupOf(o, DeRepresented, text, 1))
      && (id.None? <==> a.None? && b.None? && c.None?)
  {
    var b := o.search(DeFileNumber, text);
    if b.Some? {
      ReplaceCharRemoves(b.value.Group(1), ' ', "");
    }
  }

  /** "street, city" of a recipient block match. */
  function StreetCity(m: Match): string {
    Strip(m.Group(2)) + ", " + Strip(m.Group(3))
  }

  /** The institution of the recipient block: name and "street, city" from the bold or the
      line layout of "Empfänger:", or a known bank name alone. */
  function RecipientOf(o: Engine, text: string): (r: Option<(string, Option<string>)>)
    ensures r.Some? && r.value.1.Some? <==>
      o.search(DeRecipientBold, text).Some? || o.search(DeRecipientLines, text).Some?
  {
    match o.search(DeRecipientBold, text)
    case Some(m) => Some((Strip(m.Group(1)), Some(StreetCity(m))))
    case None =>
      match o.search(DeRecipientLines, text)
      case Some(m) => Some((Strip(m.Group(1)), Some(StreetCity(m))))
      case None =>
        match o.search(DeBank, text)
        case Some(m) => Some((Strip(m.Group(1)), None))
        case None => None
  }

  function GermanInstitution(o: Engine, text: string, d: Fields): Fields {
    if Has(d, InstitutionName) then d
    else
      match RecipientOf(o, text)
      case None => d
      case Some(found) => Put(Put(d, InstitutionName, Some(found.0)), InstitutionAddress, found.1)
  }

  /** The three searches of the institution-name block. */
  method FindRecipient(o: Engine, text: string) returns (found: Option<(string, Option<string>)>)
    ensures found == RecipientOf(o, text)
  {
    found := None;
    var m := o.search(DeRecipientBold, text);
    if m.Some? {
      found := Some((Strip(m.value.Group(1)), Some(StreetCity(m.value))));
    } else {
      m := o.search(DeRecipientLines, text);
      if m.Some? {
        found := Some((Strip(m.value.Group(1)), Some(StreetCity(m.value))));
      } else {
        m := o.search(DeBank, text);
        if m.Some? {
          found := Some((Strip(m.value.Group(1)), None));
        }
      }
    }
  }

  /** The institution-name block of `extract_general_de`. */
  method FillGermanInstitution(o: Engine, text: string, fields: Fields) returns (r: Fields)
    ensures r == GermanInstitution(o, text, fields)
  {
    r := fields;
    if !Has(r, InstitutionName) {
      var found := FindRecipient(o, text);
      if found.Some? {
        r := Store(r, InstitutionName, Some(found.value.0));
        r := Store(r, InstitutionAddress, found.value.1);
      }
    }
  }

  /** The raw fallback address: after "Adresse"/"Anschrift", or else a street-number-postcode
      line, stripped. */
  function GermanRawAddress(o: Engine, text: string): Option<string> {
    match o.search(DeAddressLabel, text)
    case Some(m) => Some(Strip(m.Group(1)))
    case None => Stripped(GroupOf(o, DeStreet, text, 1))
  }

  /** The normalised fallback address, when the raw one is found and not empty. */
  function GermanAddressOf(o: Engine, text: string): (r: Option<string>)
    ensures r.Some? <==> GermanRawAddress(o, text).Some? && GermanRawAddress(o, text).value != []
  {
    var raw := GermanRawAddress(o, text);
    if raw.Some? then AddressOf(o, raw.value) else None
  }

  function GermanAddress(o: Engine, text: string, d: Fields): Fields {
    if Has(d, InstitutionAddress) then d
    else Put(d, InstitutionAddress, GermanAddressOf(o, text))
  }

  /** The address searches of `extract_general_de`: the labelled address, else the street
      line, normalised when not empty. */
  method FindGermanAddress(o: Engine, text: string) returns (address: Option<string>)
    ensures address == GermanAddressOf(o, text)
  {
    var raw: Option<string>;
    var addressMatch := o.search(DeAddressLabel, text);
    if addressMatch.Some? {
      raw := Some(Strip(addressMatch.value.Group(1)));
    } else {
      var m := o.search(DeStreet, text);
      raw := if m.Some? then Some(Strip(m.value.Group(1))) else None;
    }
    assert raw == GermanRawAddress(o, text);
    address := None;
    if raw.Some? && raw.value != [] {
      var normalized := NormalizeAddress(o, raw.value, "en");
      assert normalized == Ok(AddressOf(o, raw.value));
      address := normalized.value;
    }
  }

  /** The address-fallback block of `extract_general_de`. */
  method FillGermanAddress(o: Engine, text: string, fields: Fields) returns (r: Fields)
    ensures r == GermanAddress(o, text, fields)
  {
    r := fields;
    if !Has(r, InstitutionAddress) {
      var address := FindGermanAddress(o, text);
      r := Store(r, InstitutionAddress, address);
    }
  }

  /** What `extract_general_de(text, fields)` leaves in `fields`. */
  function German(o: Engine, text: string, d: Fields): Fields {
    GermanAddress(o, text,
      GermanInstitution(o, text, GermanCustomerId(o, text, GermanName(o, text, GermanDate(o, text, d)))))
  }

  /** `extract_general_de`: date, customer name, customer id, institution and the address
      fallback, in that order. */
  method ExtractGeneralDe(o: Engine, text: string, fields: Fields) returns (r: Fields)
    requires !Has(fields, DocumentDate)
    ensures r == German(o, text, fields)
  {
    r := FillGermanDate(o, text, fields);
    r := FillGermanName(o, text, r);
    r := FillGermanCustomerId(o, text, r);
    r := FillGermanInstitution(o, text, r);
    r := FillGermanAddress(o, text, r);
  }

  /** The recipient block decides the institution; the address fallback runs only when the
      recipient block left the address unset, so an address it wrote stays. */
  lemma GermanInstitutionFirst(o: Engine, text: string, d: Fields)
    requires Full(d) && !Has(d, InstitutionName)
    ensures var rec := RecipientOf(o, text);
      var r := GermanAddress(o, text, GermanInstitution(o, text, d));
      (rec.Some? ==> InstitutionName in r && r[InstitutionName] == Str(rec.value.0))
      && (rec.Some? && rec.value.1.Some? ==>
            InstitutionAddress in r && r[InstitutionAddress] == Str(rec.value.1.value))
  {
    var rec := RecipientOf(o, text);
    if rec.Some? {
      var d0 := Put(d, InstitutionName, Some(rec.value.0));
      var d1 := Put(d0, InstitutionAddress, rec.value.1);
      assert GermanInstitution(o, text, d) == d1;
      PutOther(d0, InstitutionAddress, rec.value.1, InstitutionName);
      PutOther(d1, InstitutionAddress, GermanAddressOf(o, text), InstitutionName);
      if rec.value.1.Some? {
        assert Has(d1, InstitutionAddress);
      }
    }
  }

  /** With a set and truthy address before the fallback, the fallback changes nothing. */
  lemma GermanAddressOnlyWhenUnset(o: Engine, text: string, d: Fields)
    ensures Has(d, InstitutionAddress) ==> GermanAddress(o, text, d) == d
    ensures !Has(d, InstitutionAddress) && GermanRawAddress(o, text).Some?
            && GermanRawAddress(o, text).value != [] ==>
      GermanAddress(o, text, d)[InstitutionAddress]
        == Str(AddressOf(o, GermanRawAddress(o, text).value).value)
  {
  }

  /** The routine writes only the five routine fields. */
  lemma GermanFrame(o: Engine, text: string, d: Fields)
    requires Full(d)
    ensures Frame(d, German(o, text, d))
  {
    var d1 := GermanDate(o, text, d);
    PutFoundKeeps(d, DocumentDate, GermanDateOf(o, text));
    var d2 := GermanName(o, text, d1);
    if !Has(d1, CustomerName) {
      PutFoundKeeps(d1, CustomerName, GermanNameOf(o, text));
    }
    var d3 := GermanCustomerId(o, text, d2);
    if !Has(d2, CustomerId) {
      PutKeeps(d2, CustomerId, GermanCustomerIdOf(o, text));
    }
    var d4 := GermanInstitution(o, text, d3);
    var rec := RecipientOf(o, text);
    if !Has(d3, InstitutionName) && rec.Some? {
      PutKeeps(d3, InstitutionName, Some(rec.value.0));
      PutKeeps(Put(d3, InstitutionName, Some(rec.value.0)), InstitutionAddress, rec.value.1);
    }
    if !Has(d4, InstitutionAddress) {
      PutKeeps(d4, InstitutionAddress, GermanAddressOf(o, text));
    }
  }

  // ================================================================ Italian

  const ItDate: Pat := GeneralLabel(It, DocumentDate, 0)           // "Data di emissione …"
  const ItName: Pat := GeneralLabel(It, CustomerName, 0)           // "Nome e Cognome …"
  const ItAccount: Pat := GeneralLabel(It, CustomerId, 0)          // "Account Number …"
  const ItFiscalCode: Pat := GeneralLabel(It, CustomerId, 1)       // "Codice Fiscale …"
  const ItBank: Pat := GeneralLabel(It, InstitutionName, 0)
  const ItAddress: Pat := GeneralLabel(It, InstitutionAddress, 0)  // "Indirizzo"/"Sede Legale"

  /** The customer id of the two guarded blocks: the account number, stripped; the fiscal
      code replaces it when the account number is missing or empty, because the second block
      tests the field again. */
  function ItalianIdOf(o: Engine, text: string): Option<string> {
    var account := Stripped(GroupOf(o, ItAccount, text, 1));
    var fiscal := Stripped(GroupOf(o, ItFiscalCode, text, 1));
    if account.Some? && account.value != [] then account
    else if fiscal.Some? then fiscal
    else account
  }

  /** What `extract_general_it(text, fields)` leaves in `fields`. */
  function Italian(o: Engine, text: string, d: Fields): Fields {
    var d := PutFound(d, DocumentDate, DateFound(o, ItDate, text, "it"));
    var d := PutFound(d, CustomerName, NameFound(GroupOf(o, ItName, text, 1)));
    var d := if Has(d, CustomerId) then d else Put(d, CustomerId, ItalianIdOf(o, text));
    var d := Put(d, InstitutionName, GroupOf(o, ItBank, text, 1));
    PutFound(d, InstitutionAddress, AddressFound(o, GroupOf(o, ItAddress, text, 1)))
  }

  /** `extract_general_it`: date, name, the account number or else the fiscal code as
      customer id, bank and address. */
  method ExtractGeneralIt(o: Engine, text: string, fields: Fields) returns (r: Fields)
    ensures r == Italian(o, text, fields)
  {
    r := StoreFound(fields, DocumentDate, DateFound(o, ItDate, text, "it"));
    r := StoreFound(r, CustomerName, NameFound(GroupOf(o, ItName, text, 1)));
    if !Has(r, CustomerId) {
      var id := Stripped(GroupOf(o, ItAccount, text, 1));
      // the second block runs when the first wrote nothing or an empty string
      if !(id.Some? && id.value != []) {
        var fiscal := Stripped(GroupOf(o, ItFiscalCode, text, 1));
        if fiscal.Some? {
          id := fiscal;
        }
      }
      r := Store(r, CustomerId, id);
    }
    r := Store(r, InstitutionName, GroupOf(o, ItBank, text, 1));
    r := StoreFound(r, InstitutionAddress, AddressFound(o, GroupOf(o, ItAddress, text, 1)));
  }

  /** An unset customer id becomes the account number when it is found and not empty, and
      the fiscal code only otherwise; a set one is kept. */
  lemma ItalianCustomerId(o: Engine, text: string, d: Fields)
    ensures var r := Italian(o, text, d);
      var a := Stripped(GroupOf(o, ItAccount, text, 1));
      var f := Stripped(GroupOf(o, ItFiscalCode, text, 1));
      (Has(d, CustomerId) ==> r[CustomerId] == d[CustomerId])
      && (!Has(d, CustomerId) && a.Some? && a.value != [] ==> r[CustomerId] == Str(a.value))
      && (!Has(d, CustomerId) && !(a.Some? && a.value != []) && f.Some? ==>
            r[CustomerId] == Str(f.value))
  {
    var d1 := PutFound(d, DocumentDate, DateFound(o, ItDate, text, "it"));
    PutFoundOther(d, DocumentDate, DateFound(o, ItDate, text, "it"), CustomerId);
    var d2 := PutFound(d1, CustomerName, NameFound(GroupOf(o, ItName, text, 1)));
    PutFoundOther(d1, CustomerName, NameFound(GroupOf(o, ItName, text, 1)), CustomerId);
    var d3 := if Has(d2, CustomerId) then d2 else Put(d2, CustomerId, ItalianIdOf(o, text));
    var d4 := Put(d3, InstitutionName, GroupOf(o, ItBank, text, 1));
    PutOther(d3, InstitutionName, GroupOf(o, ItBank, text, 1), CustomerId);
    PutFoundOther(d4, InstitutionAddress, AddressFound(o, GroupOf(o, ItAddress, text, 1)),
                  CustomerId);
  }

  /** The routine writes only the five routine fields. */
  lemma ItalianFrame(o: Engine, text: string, d: Fields)
    requires Full(d)
    ensures Frame(d, Italian(o, text, d))
  {
    var d1 := PutFound(d, DocumentDate, DateFound(o, ItDate, text, "it"));
    PutFoundKeeps(d, DocumentDate, DateFound(o, ItDate, text, "it"));
    var d2 := PutFound(d1, CustomerName, NameFound(GroupOf(o, ItName, text, 1)));
    PutFoundKeeps(d1, CustomerName, NameFound(GroupOf(o, ItName, text, 1)));
    var d3 := if Has(d2, CustomerId) then d2 else Put(d2, CustomerId, ItalianIdOf(o, text));
    if !Has(d2, CustomerId) {
      PutKeeps(d2, CustomerId, ItalianIdOf(o, text));
    }
    var d4 := Put(d3, InstitutionName, GroupOf(o, ItBank, text, 1));
    PutKeeps(d3, InstitutionName, GroupOf(o, ItBank, text, 1));
    PutFoundKeeps(d4, InstitutionAddress, AddressFound(o, GroupOf(o, ItAddress, text, 1)));
  }

  // ================================================================ English

  const EnCustomerId: Pat := GeneralLabel(En, CustomerId, 0)       // the id is group 2
  const EnDate: Pat := GeneralLabel(En, DocumentDate, 0)           // "Statement Date …"
  const EnName: Pat := GeneralLabel(En, CustomerName, 0)           // "Name: …"
  const EnBank: Pat := GeneralLabel(En, InstitutionName, 0)
  const EnAddressPats: seq<Pat> :=
    [GeneralLabel(En, InstitutionAddress, 0), GeneralLabel(En, InstitutionAddress, 1)]

  /** The English name: group 1 stripped, cut before "Address" when it mentions one. */
  function EnglishNameOf(o: Engine, text: string): Option<Option<string>> {
    match GroupOf(o, EnName, text, 1)
    case None => None
    case Some(g) => Some(NormalizeName(CutBefore(Strip(g), "address", "Address")))
  }

  /** The address of the first address pattern that matches, group 1 stripped. */
  function EnglishAddressOf(o: Engine, text: string): Option<Option<string>> {
    match FirstMatch(o, EnAddressPats, text)
    case None => None
    case Some(hit) => Some(AddressOf(o, Strip(hit.1.Group(1))))
  }

  /** The address loop of `extract_general_en`: the patterns in order, stopping at the first
      match. */
  method FindEnglishAddress(o: Engine, text: string) returns (r: Option<Option<string>>)
    ensures r == EnglishAddressOf(o, text)
  {
    for i := 0 to |EnAddressPats|
      invariant forall j :: 0 <= j < i ==> o.search(EnAddressPats[j], text).None?
    {
      var m := o.search(EnAddressPats[i], text);
      if m.Some? {
        var hit := FirstMatch(o, EnAddressPats, text);
        assert hit == Some((i, m.value)) by {
          assert !(hit.value.0 < i) && !(i < hit.value.0);
        }
        var rawAddress := Strip(m.value.Group(1));
        var address := NormalizeAddress(o, rawAddress, "en");
        assert address == Ok(AddressOf(o, rawAddress));
        return Some(address.value);
      }
    }
    return None;
  }

  /** What `extract_general_en(text, fields)` leaves in `fields`. */
  function English(o: Engine, text: string, d: Fields): Fields {
    var d := Put(d, CustomerId, Stripped(GroupOf(o, EnCustomerId, text, 2)));
    var d := PutFound(d, DocumentDate, DateFound(o, EnDate, text, "en"));
    var d := PutFound(d, CustomerName, EnglishNameOf(o, text));
    var d := Put(d, InstitutionName, GroupOf(o, EnBank, text, 1));
    PutFound(d, InstitutionAddress, EnglishAddressOf(o, text))
  }

  /** `extract_general_en`: customer id, date, name, bank and address. */
  method ExtractGeneralEn(o: Engine, text: string, fields: Fields) returns (r: Fields)
    ensures r == English(o, text, fields)
  {
    r := Store(fields, CustomerId, Stripped(GroupOf(o, EnCustomerId, text, 2)));
    r := StoreFound(r, DocumentDate, DateFound(o, EnDate, text, "en"));
    r := StoreFound(r, CustomerName, EnglishNameOf(o, text));
    r := Store(r, InstitutionName, GroupOf(o, EnBank, text, 1));
    var address := FindEnglishAddress(o, text);
    r := StoreFound(r, InstitutionAddress, address);
  }

  /** The first address pattern wins; the second is used only when the first does not
      match. */
  lemma EnglishAddressOrder(o: Engine, text: string)
    ensures var a := o.search(EnAddressPats[0], text);
      var b := o.search(EnAddressPats[1], text);
      var r := EnglishAddressOf(o, text);
      (a.Some? ==> r == Some(AddressOf(o, Strip(a.value.Group(1)))))
      && (a.None? && b.Some? ==> r == Some(AddressOf(o, Strip(b.value.Group(1)))))
      && (a.None? && b.None? ==> r.None?)
  {
    var hit := FirstMatch(o, EnAddressPats, text);
    if hit.Some? {
      assert hit.value.0 == 0 || hit.value.0 == 1;
    }
  }

  /** The routine writes only the five routine fields. */
  lemma EnglishFrame(o: Engine, text: string, d: Fields)
    requires Full(d)
    ensures Frame(d, English(o, text, d))
  {
    var d1 := Put(d, CustomerId, Stripped(GroupOf(o, EnCustomerId, text, 2)));
    PutKeeps(d, CustomerId, Stripped(GroupOf(o, EnCustomerId, text, 2)));
    var d2 := PutFound(d1, DocumentDate, DateFound(o, EnDate, text, "en"));
    PutFoundKeeps(d1, DocumentDate, DateFound(o, EnDate, text, "en"));
    var d3 := PutFound(d2, CustomerName, EnglishNameOf(o, text));
    PutFoundKeeps(d2, CustomerName, EnglishNameOf(o, text));
    var d4 := Put(d3, InstitutionName, GroupOf(o, EnBank, text, 1));
    PutKeeps(d3, InstitutionName, GroupOf(o, EnBank, text, 1));
    PutFoundKeeps(d4, InstitutionAddress, EnglishAddressOf(o, text));
  }

  // ================================================================ Spanish

  const EsDate: Pat := GeneralLabel(Es, DocumentDate, 0)           // "Fecha …"
  const EsName: Pat := GeneralLabel(Es, CustomerName, 0)           // "Nombre …"
  const EsId: Pat := GeneralLabel(Es, CustomerId, 0)               // "NIF"/"DNI" …
  const EsAddress: Pat := GeneralLabel(Es, InstitutionAddress, 0)  // "Dirección …"
  const EsPostalLine: Pat := GeneralLabel(Es, InstitutionAddress, 1)
  const EsAddressCandidate: Pat := GeneralLabel(Es, InstitutionAddress, 2)

  /** The known institutions, in the order tried. */
  const KnownInstitutions: seq<string> :=
    ["Banco Hispano Internacional", "Banco Santander", "BBVA", "CaixaBank", "Bankinter",
     "Banco de Espa\U{00F1}a", "Agencia Tributaria", "Banco Popular", "ING"]

  /** The whole-word, case-insensitive search for each known institution, in the same
      order. */
  const InstitutionPats: seq<Pat> :=
    [GeneralLabel(Es, InstitutionName, 0), GeneralLabel(Es, InstitutionName, 1),
     GeneralLabel(Es, InstitutionName, 2), GeneralLabel(Es, InstitutionName, 3),
     GeneralLabel(Es, InstitutionName, 4), GeneralLabel(Es, InstitutionName, 5),
     GeneralLabel(Es, InstitutionName, 6), GeneralLabel(Es, InstitutionName, 7),
     GeneralLabel(Es, InstitutionName, 8)]

  /** The first known institution, in list order, whose name occurs. */
  function KnownInstitution(o: Engine, text: string): (r: Option<string>)
    ensures r.None? <==>
      forall i :: 0 <= i < |KnownInstitutions| ==> o.search(InstitutionPats[i], text).None?
    ensures r.Some? ==>
      exists i :: (0 <= i < |KnownInstitutions| && r.value == KnownInstitutions[i]
                   && o.search(InstitutionPats[i], text).Some?
                   && forall j :: 0 <= j < i ==> o.search(InstitutionPats[j], text).None?)
  {
    match FirstMatch(o, InstitutionPats, text)
    case None => None
    case Some(hit) => Some(KnownInstitutions[hit.0])
  }

  /** The institution loop of `extract_general_es`. */
  method FindKnownInstitution(o: Engine, text: string) returns (r: Option<string>)
    ensures r == KnownInstitution(o, text)
  {
    for i := 0 to |KnownInstitutions|
      invariant forall j :: 0 <= j < i ==> o.search(InstitutionPats[j], text).None?
    {
      if o.search(InstitutionPats[i], text).Some? {
        var hit := FirstMatch(o, InstitutionPats, text);
        assert hit.Some? && hit.value.0 == i by {
          assert !(hit.value.0 < i) && !(i < hit.value.0);
        }
        return Some(KnownInstitutions[i]);
      }
    }
    return None;
  }

  /** `raw += " " + line.strip()` for every line with a postcode followed by a capitalised
      word. */
  function PostalLines(o: Engine, lines: seq<string>): string {
    if lines == [] then ""
    else
      var last := lines[|lines| - 1];
      PostalLines(o, lines[..|lines| - 1])
        + (if o.search(EsPostalLine, last).Some? then " " + Strip(last) else "")
  }

  /** The collected text is empty exactly when no line has a postcode. */
  lemma {:induction false} PostalLinesEmpty(o: Engine, lines: seq<string>)
    ensures PostalLines(o, lines) == [] <==>
      forall i :: 0 <= i < |lines| ==> o.search(EsPostalLine, lines[i]).None?
  {
    if lines != [] {
      var init := lines[..|lines| - 1];
      PostalLinesEmpty(o, init);
      assert forall i :: 0 <= i < |init| ==> init[i] == lines[i];
    }
  }

  /** The fallback loop of `extract_general_es`. */
  method CollectPostalLines(o: Engine, text: string) returns (raw: string)
    ensures raw == PostalLines(o, SplitLines(text))
  {
    var lines := SplitLines(text);
    raw := "";
    for i := 0 to |lines|
      invariant raw == PostalLines(o, lines[..i])
    {
      assert lines[..i + 1][..i] == lines[..i];
      if o.search(EsPostalLine, lines[i]).Some? {
        raw := raw + " " + Strip(lines[i]);
      }
    }
    assert lines[..|lines|] == lines;
  }

  /** The OCR corrections applied to the raw Spanish address. */
  const SpanishFixes: seq<(string, string)> :=
    [("Ca11e", "Calle"), ("Caste1lana", "Castellana"), ("Espana", "Espa\U{00F1}a"),
     ("Macrid", "Madrid")]

  /** The raw address: the labelled one, stripped, or else the collected postcode lines. */
  function SpanishRaw(o: Engine, text: string): string {
    match o.search(EsAddress, text)
    case Some(m) => Strip(m.Group(1))
    case None => PostalLines(o, SplitLines(text))
  }

  /** The Spanish address: the first address candidate of the corrected raw text. */
  function SpanishAddress(o: Engine, text: string): Option<Option<string>> {
    var raw := SpanishRaw(o, text);
    if raw == [] then None
    else
      var candidates := o.findAll(EsAddressCandidate, ApplyAll(raw, SpanishFixes));
      if candidates == [] then None else Some(AddressOf(o, candidates[0]))
  }

  /** The address block of `extract_general_es`. */
  method FindSpanishAddress(o: Engine, text: string) returns (r: Option<Option<string>>)
    ensures r == SpanishAddress(o, text)
  {
    var raw: string;
    var m := o.search(EsAddress, text);
    if m.Some? {
      raw := Strip(m.value.Group(1));
    } else {
      raw := CollectPostalLines(o, text);
    }
    r := None;
    if raw != [] {
      raw := Replace(Replace(raw, "Ca11e", "Calle"), "Caste1lana", "Castellana");
      raw := Replace(Replace(raw, "Espana", "Espa\U{00F1}a"), "Macrid", "Madrid");
      var candidates := o.findAll(EsAddressCandidate, raw);
      if candidates != [] {
        var address := NormalizeAddress(o, candidates[0], "en");
        r := Some(address.value);
      }
    }
  }

  /** What `extract_general_es(text, fields)` leaves in `fields`. */
  function Spanish(o: Engine, text: string, d: Fields): Fields {
    var d := PutFound(d, DocumentDate, DateFound(o, EsDate, text, "es"));
    var d := if Has(d, CustomerName) then d
             else PutFound(d, CustomerName, NameFound(Stripped(GroupOf(o, EsName, text, 1))));
    var d := if Has(d, CustomerId) then d
             else Put(d, CustomerId, Stripped(GroupOf(o, EsId, text, 1)));
    var d := if Has(d, InstitutionName) then d
             else Put(d, InstitutionName, KnownInstitution(o, text));
    if Has(d, InstitutionAddress) then d
    else PutFound(d, InstitutionAddress, SpanishAddress(o, text))
  }

  /** `extract_general_es`: date, name, id, the first known institution and the address. */
  method ExtractGeneralEs(o: Engine, text: string, fields: Fields) returns (r: Fields)
    ensures r == Spanish(o, text, fields)
  {
    r := StoreFound(fields, DocumentDate, DateFound(o, EsDate, text, "es"));
    if !Has(r, CustomerName) {
      r := StoreFound(r, CustomerName, NameFound(Stripped(GroupOf(o, EsName, text, 1))));
    }
    if !Has(r, CustomerId) {
      r := Store(r, CustomerId, Stripped(GroupOf(o, EsId, text, 1)));
    }
    if !Has(r, InstitutionName) {
      var name := FindKnownInstitution(o, text);
      r := Store(r, InstitutionName, name);
    }
    if !Has(r, InstitutionAddress) {
      var address := FindSpanishAddress(o, text);
      r := StoreFound(r, InstitutionAddress, address);
    }
  }

  /** Without a labelled address, an address needs at least one postcode line. */
  lemma SpanishAddressNeedsPostcode(o: Engine, text: string)
    requires o.search(EsAddress, text).None?
    requires forall i :: 0 <= i < |SplitLines(text)| ==>
      o.search(EsPostalLine, SplitLines(text)[i]).None?
    ensures SpanishAddress(o, text).None?
  {
    PostalLinesEmpty(o, SplitLines(text));
  }

  /** The routine writes only the five routine fields. */
  lemma SpanishFrame(o: Engine, text: string, d: Fields)
    requires Full(d)
    ensures Frame(d, Spanish(o, text, d))
  {
    var d1 := PutFound(d, DocumentDate, DateFound(o, EsDate, text, "es"));
    PutFoundKeeps(d, DocumentDate, DateFound(o, EsDate, text, "es"));
    var name := NameFound(Stripped(GroupOf(o, EsName, text, 1)));
    var d2 := if Has(d1, CustomerName) then d1 else PutFound(d1, CustomerName, name);
    if !Has(d1, CustomerName) {
      PutFoundKeeps(d1, CustomerName, name);
    }
    var id := Stripped(GroupOf(o, EsId, text, 1));
    var d3 := if Has(d2, CustomerId) then d2 else Put(d2, CustomerId, id);
    if !Has(d2, CustomerId) {
      PutKeeps(d2, CustomerId, id);
    }
    var d4 := if Has(d3, InstitutionName) then d3
              else Put(d3, InstitutionName, KnownInstitution(o, text));
    if !Has(d3, InstitutionName) {
      PutKeeps(d3, InstitutionName, KnownInstitution(o, text));
    }
    if !Has(d4, InstitutionAddress) {
      PutFoundKeeps(d4, InstitutionAddress, SpanishAddress(o, text));
    }
  }

  // ================================================================ French

  const FrDate: Pat := GeneralLabel(Fr, DocumentDate, 0)           // "Date : 3 février 2025"
  const FrName: Pat := GeneralLabel(Fr, CustomerName, 0)           // "Nom: …"
  const FrBank: Pat := GeneralLabel(Fr, InstitutionName, 0)
  const FrAddress: Pat := GeneralLabel(Fr, InstitutionAddress, 0)  // "Adresse: …"

  /** The OCR fix of "tévrier" and the non-breaking spaces turned into spaces. */
  function FrenchText(text: string): (r: string)
    ensures '\U{00A0}' !in r && '\U{202F}' !in r
  {
    var t := Replace(text, "t\U{00E9}vrier", "f\U{00E9}vrier");
    ReplaceCharRemoves(t, '\U{00A0}', " ");
    ReplaceKeepsOut(Replace(t, "\U{00A0}", " "), "\U{202F}", " ", '\U{00A0}');
    ReplaceCharRemoves(Replace(t, "\U{00A0}", " "), '\U{202F}', " ");
    Replace(Replace(t, "\U{00A0}", " "), "\U{202F}", " ")
  }

  /** The French name: group 1 stripped, cut before "Adresse" when it mentions one. */
  function FrenchNameOf(o: Engine, text: string): Option<Option<string>> {
    match GroupOf(o, FrName, text, 1)
    case None => None
    case Some(g) => Some(NormalizeName(CutBefore(Strip(g), "adresse", "Adresse")))
  }

  /** What `extract_general_fr(text, fields)` leaves in `fields`: every search reads the fixed
      text. */
  function French(o: Engine, text: string, d: Fields): Fields {
    var t := FrenchText(text);
    var d := PutFound(d, DocumentDate, DateFound(o, FrDate, t, "fr"));
    var d := PutFound(d, CustomerName, FrenchNameOf(o, t));
    var d := Put(d, InstitutionName, GroupOf(o, FrBank, t, 1));
    PutFound(d, InstitutionAddress, AddressFound(o, Stripped(GroupOf(o, FrAddress, t, 1))))
  }

  /** `extract_general_fr`: the text is fixed first, then date, name, bank and address. */
  method ExtractGeneralFr(o: Engine, text: string, fields: Fields) returns (r: Fields)
    ensures r == French(o, text, fields)
  {
    var t := Replace(text, "t\U{00E9}vrier", "f\U{00E9}vrier");
    t := Replace(Replace(t, "\U{00A0}", " "), "\U{202F}", " ");
    assert t == FrenchText(text);
    r := StoreFound(fields, DocumentDate, DateFound(o, FrDate, t, "fr"));
    r := StoreFound(r, CustomerName, FrenchNameOf(o, t));
    r := Store(r, InstitutionName, GroupOf(o, FrBank, t, 1));
    r := StoreFound(r, InstitutionAddress, AddressFound(o, Stripped(GroupOf(o, FrAddress, t, 1))));
  }

  /** The routine writes only the five routine fields. */
  lemma FrenchFrame(o: Engine, text: string, d: Fields)
    requires Full(d)
    ensures Frame(d, French(o, text, d))
  {
    var t := FrenchText(text);
    var d1 := PutFound(d, DocumentDate, DateFound(o, FrDate, t, "fr"));
    PutFoundKeeps(d, DocumentDate, DateFound(o, FrDate, t, "fr"));
    var d2 := PutFound(d1, CustomerName, FrenchNameOf(o, t));
    PutFoundKeeps(d1, CustomerName, FrenchNameOf(o, t));
    var d3 := Put(d2, InstitutionName, GroupOf(o, FrBank, t, 1));
    PutKeeps(d2, InstitutionName, GroupOf(o, FrBank, t, 1));
    PutFoundKeeps(d3, InstitutionAddress, AddressFound(o, Stripped(GroupOf(o, FrAddress, t, 1))));
  }

  // ================================================================ the extractor

  /** `document_type or "unknown"`. */
  function TypeOrUnknown(hint: Option<string>): (s: string)
    ensures s != []
  {
    if hint.Some? && hint.value != [] then hint.value else "unknown"
  }

  /** The dictionary before any search: the language and the type, everything else `None`. */
  function Blank(lang: string, hint: Option<string>): (r: Fields)
    ensures Full(r) && r.Keys == RoutineKeys + {DocumentId, DocumentType, Language}
    ensures r[DocumentId] == Null && r[Language] == Str(lang)
    ensures r[DocumentType] == Str(TypeOrUnknown(hint))
    ensures forall k :: k in RoutineKeys ==> r[k] == Null
  {
    map[DocumentId := Null, Language := Str(lang), DocumentType := Str(TypeOrUnknown(hint)),
        DocumentDate := Null, CustomerName := Null, CustomerId := Null,
        InstitutionName := Null, InstitutionAddress := Null]
  }

  /** The document id: the whole identifier match, or else the fresh identifier. */
  function DocumentIdOf(o: Engine, text: string, freshId: string): string {
    match GroupOf(o, DocumentIdPattern, text, 0)
    case None => freshId
    case Some(g) => g
  }

  /** The language routing: a routine for de, fr, es, it and en, none for any other code. */
  function Routed(o: Engine, text: string, lang: string, d: Fields): Fields
    requires !Has(d, DocumentDate)
  {
    if lang == "de" then German(o, text, d)
    else if lang == "fr" then French(o, text, d)
    else if lang == "es" then Spanish(o, text, d)
    else if lang == "it" then Italian(o, text, d)
    else if lang == "en" then English(o, text, d)
    else d
  }

  /** The routing of `extract_general_fields`. */
  method Route(o: Engine, text: string, lang: string, fields: Fields) returns (r: Fields)
    requires !Has(fields, DocumentDate)
    ensures r == Routed(o, text, lang, fields)
  {
    r := fields;
    if lang == "de" {
      r := ExtractGeneralDe(o, text, r);
    } else if lang == "fr" {
      r := ExtractGeneralFr(o, text, r);
    } else if lang == "es" {
      r := ExtractGeneralEs(o, text, r);
    } else if lang == "it" {
      r := ExtractGeneralIt(o, text, r);
    } else if lang == "en" {
      r := ExtractGeneralEn(o, text, r);
    }
  }

  /** What `extract_general_fields(text, language, document_type)` returns; `freshId` is the
      text of the UUID generated when no identifier is found. */
  function GeneralFields(o: Engine, text: string, lang: string, hint: Option<string>,
                         freshId: string): Fields
  {
    Routed(o, text, lang, Blank(lang, hint)[DocumentId := Str(DocumentIdOf(o, text, freshId))])
  }

  /** `extract_general_fields`. */
  method ExtractGeneralFields(o: Engine, text: string, lang: string, hint: Option<string>,
                              freshId: string) returns (fields: Fields)
    ensures fields == GeneralFields(o, text, lang, hint, freshId)
  {
    fields := Blank(lang, hint);
    var idMatch := o.search(DocumentIdPattern, text);
    var id: string;
    if idMatch.Some? {
      id := idMatch.value.Group(0);
    } else {
      // the id is still `None` here, so the UUID is always taken
      id := freshId;
    }
    assert id == DocumentIdOf(o, text, freshId);
    fields := fields[DocumentId := Str(id)];
    fields := Route(o, text, lang, fields);
  }

  /** The result has exactly the eight general keys; the id is never `None` (it is the
      identifier in the text, or the fresh identifier when the text has none), the type is
      the hint or "unknown", and the language is stored as given. */
  lemma GeneralShape(o: Engine, text: string, lang: string, hint: Option<string>,
                     freshId: string)
    ensures var r := GeneralFields(o, text, lang, hint, freshId);
      r.Keys == RoutineKeys + {DocumentId, DocumentType, Language}
      && r[DocumentId] == Str(DocumentIdOf(o, text, freshId))
      && r[DocumentType] == Str(TypeOrUnknown(hint))
      && r[Language] == Str(lang)
  {
    var d := Blank(lang, hint)[DocumentId := Str(DocumentIdOf(o, text, freshId))];
    assert Full(d) && !Has(d, DocumentDate);
    assert d.Keys == RoutineKeys + {DocumentId, DocumentType, Language};
    if lang == "de" {
      GermanFrame(o, text, d);
    } else if lang == "fr" {
      FrenchFrame(o, text, d);
    } else if lang == "es" {
      SpanishFrame(o, text, d);
    } else if lang == "it" {
      ItalianFrame(o, text, d);
    } else if lang == "en" {
      EnglishFrame(o, text, d);
    }
  }

  /** A language without a routine leaves the five routine fields `None`. */
  lemma UnroutedLanguage(o: Engine, text: string, lang: string, hint: Option<string>,
                         freshId: string)
    requires lang !in {"de", "fr", "es", "it", "en"}
    ensures forall k :: k in RoutineKeys ==> GeneralFields(o, text, lang, hint, freshId)[k] == Null
  {
  }
}
