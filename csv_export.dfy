/** The CSV export of scrape results: the header list and the row cells that are
    handed to the CSV writer. Column names are built from strings, each row is
    an object keyed by those names, and the cells are read back in header
    order. */
module CsvExport {
  import opened Collections
  import opened Text
  import Scrape

  /** The platforms that get a column of their own, in column order. */
  const SocialPlatforms: seq<string> :=
    ["linkedin", "facebook", "twitter", "instagram", "youtube", "tiktok", "pinterest"]

  /** How many general emails, general phones and contact forms are exported. */
  const EmailColumns: nat := 3
  const PhoneColumns: nat := 3
  const FormColumns: nat := 2

  /** Index of the first platform column: after `Domain`, the emails and the phones. */
  const FirstPlatformColumn: nat := 7

  /** Columns that do not depend on the number of people. */
  const FixedColumnCount: nat := 16

  /** `socialMedia` as a result may carry it: keyed by platform, or the flat list of
      profile links that the scrape endpoint returns. */
  datatype SocialMedia = Keyed(byPlatform: map<string, seq<string>>) | Listed(links: seq<string>)

  /** One result of the crawl. A missing field is the empty string or the empty list;
      a missing `socialMedia` is `Keyed(map[])`. */
  datatype ResultRecord = ResultRecord(
    domain: string,
    generalEmails: seq<string>,
    generalPhones: seq<string>,
    socialMedia: SocialMedia,
    contactForms: seq<string>,
    people: seq<Scrape.Person>)

  /** The numbered column families. */
  datatype Family = GeneralEmail | GeneralPhone | ContactForm | PersonName | PersonEmails | PersonPhones

  datatype Column = Domain | Platform(platform: string) | Numbered(family: Family, n: nat)

  /** Columns the export can produce: platform columns only for the known platforms. */
  predicate Known(c: Column) {
    c.Platform? ==> c.platform in SocialPlatforms
  }

  /** `p.charAt(0).toUpperCase() + p.slice(1)` */
  function Capitalize(p: string): (r: string)
    ensures |r| == |p|
    ensures p != [] ==> r[0] == UpperChar(p[0]) && r[1..] == p[1..]
  {
    if p == [] then [] else [UpperChar(p[0])] + p[1..]
  }

  function Prefix(f: Family): string {
    match f
    case GeneralEmail => "General_Email_"
    case GeneralPhone => "General_Phone_"
    case ContactForm => "Contact_Form_"
    case _ => "Person_"
  }

  function Suffix(f: Family): string {
    match f
    case PersonName => "_Name"
    case PersonEmails => "_Emails"
    case PersonPhones => "_Phones"
    case _ => ""
  }

  /** The header text of a column. */
  function ColumnName(c: Column): string {
    match c
    case Domain => "Domain"
    case Platform(p) => Capitalize(p)
    case Numbered(f, n) => Prefix(f) + NatToString(n) + Suffix(f)
  }

  /** In `p + d + s` with `d` a non-empty run of digits and `s` empty or starting
      with a non-digit, the digits and the rest are determined. */
  lemma DigitRunDetermined(p: string, d1: string, s1: string, d2: string, s2: string)
    requires p + d1 + s1 == p + d2 + s2
    requires d1 != [] && forall i :: 0 <= i < |d1| ==> IsDigit(d1[i])
    requires d2 != [] && forall i :: 0 <= i < |d2| ==> IsDigit(d2[i])
    requires s1 == [] || !IsDigit(s1[0])
    requires s2 == [] || !IsDigit(s2[0])
    ensures d1 == d2 && s1 == s2
  {
    var x := p + d1 + s1;
    var y := p + d2 + s2;
    var l := |p|;
    assert |d1| == |d2|;
    assert d1 == x[l..l + |d1|];
    assert d2 == y[l..l + |d2|];
    assert s1 == x[l + |d1|..];
    assert s2 == y[l + |d2|..];
  }

  lemma SuffixShape(f: Family)
    ensures Suffix(f) == [] || Suffix(f)[0] == '_'
  {
  }

  /** Two families whose names share a prefix have the same prefix. */
  lemma PrefixesApart(f: Family, g: Family)
    requires Prefix(f) <= Prefix(g)
    ensures Prefix(f) == Prefix(g)
  {
    assert Prefix(f)[0] == Prefix(g)[0];
  }

  lemma NumberedInjective(f: Family, m: nat, g: Family, n: nat)
    requires ColumnName(Numbered(f, m)) == ColumnName(Numbered(g, n))
    ensures f == g && m == n
  {
    var x := ColumnName(Numbered(f, m));
    assert x[..|Prefix(f)|] == Prefix(f);
    assert x[..|Prefix(g)|] == Prefix(g);
    if |Prefix(f)| <= |Prefix(g)| {
      assert Prefix(f) <= Prefix(g);
      PrefixesApart(f, g);
    } else {
      assert Prefix(g) <= Prefix(f);
      PrefixesApart(g, f);
    }
    SuffixShape(f);
    SuffixShape(g);
    DigitRunDetermined(Prefix(f), NatToString(m), Suffix(f), NatToString(n), Suffix(g));
    NatToStringInjective(m, n);
  }

  /** The platform names start with a lower-case letter that no other header
      starts with, except `p`, whose second letter differs from "Person_". */
  lemma PlatformShape(p: string)
    requires p in SocialPlatforms
    ensures |p| >= 2 && IsLower(p[0])
    ensures p[0] != 'd' && p[0] != 'g' && p[0] != 'c'
    ensures p[0] == 'p' ==> p[1] == 'i'
  {
  }

  lemma CapitalizeInjective(p: string, q: string)
    requires p != [] && IsLower(p[0]) && q != [] && IsLower(q[0])
    requires Capitalize(p) == Capitalize(q)
    ensures p == q
  {
    assert UpperChar(p[0]) == UpperChar(q[0]);
    assert p == [p[0]] + p[1..];
    assert q == [q[0]] + q[1..];
  }

  /** Different known columns have different headers, so no cell of a row
      overwrites another. */
  lemma ColumnNameInjective(a: Column, b: Column)
    requires Known(a) && Known(b)
    requires ColumnName(a) == ColumnName(b)
    ensures a == b
  {
    match a {
      case Domain =>
        if b.Platform? {
          PlatformNameApart(b.platform, a);
        } else if b.Numbered? {
          DomainNameApart(b);
        }
      case Platform(p) =>
        if b.Platform? {
          PlatformShape(p);
          PlatformShape(b.platform);
          CapitalizeInjective(p, b.platform);
        } else {
          PlatformNameApart(p, b);
        }
      case Numbered(f, m) =>
        if b.Platform? {
          PlatformNameApart(b.platform, a);
        } else if b.Numbered? {
          NumberedInjective(f, m, b.family, b.n);
        }
    }
  }

  /** "Domain" starts with a letter no numbered header starts with. */
  lemma DomainNameApart(b: Column)
    requires b.Numbered?
    ensures ColumnName(b) != "Domain"
  {
    var name := ColumnName(b);
    assert name[0] == Prefix(b.family)[0];
  }

  /** A platform header differs from every header that is not a platform's. */
  lemma PlatformNameApart(p: string, b: Column)
    requires p in SocialPlatforms && !b.Platform?
    ensures Capitalize(p) != ColumnName(b)
  {
    PlatformShape(p);
    var x, y := Capitalize(p), ColumnName(b);
    assert x[0] == UpperChar(p[0]);
    if b.Domain? {
      assert y[0] == 'D';
    } else {
      assert y[0] == Prefix(b.family)[0];
      assert y[1] == Prefix(b.family)[1];
    }
  }

  // ----- The column list -----

  /** The columns `f 1, …, f n`. */
  function Run(f: Family, n: nat): (r: seq<Column>)
    ensures |r| == n
    ensures forall k :: 0 <= k < n ==> r[k] == Numbered(f, k + 1)
  {
    seq(n, k requires 0 <= k < n => Numbered(f, k + 1))
  }

  function PlatformColumns(platforms: seq<string>): (r: seq<Column>)
    ensures |r| == |platforms|
    ensures forall k :: 0 <= k < |r| ==> r[k] == Platform(platforms[k])
  {
    Map(p => Platform(p), platforms)
  }

  predicate IsPersonColumn(c: Column) {
    c.Numbered? && c.n >= 1 && (c.family == PersonName || c.family == PersonEmails || c.family == PersonPhones)
  }

  /** Name, emails and phones for person 1, then for person 2, and so on. */
  function PersonColumns(maxPeople: nat): (r: seq<Column>)
    ensures |r| == 3 * maxPeople
    ensures forall c :: c in r ==> IsPersonColumn(c) && c.n <= maxPeople
  {
    if maxPeople == 0 then []
    else
      var init := PersonColumns(maxPeople - 1);
      init + PersonTriple(maxPeople)
  }

  lemma {:induction false} PersonColumnsDistinct(maxPeople: nat)
    ensures NoDup(PersonColumns(maxPeople))
  {
    if maxPeople > 0 {
      PersonColumnsDistinct(maxPeople - 1);
    }
  }

  /** The sixteen columns every export has. */
  function FixedColumns(): seq<Column> {
    [Domain] + Run(GeneralEmail, EmailColumns) + Run(GeneralPhone, PhoneColumns)
      + PlatformColumns(SocialPlatforms) + Run(ContactForm, FormColumns)
  }

  function Columns(maxPeople: nat): (r: seq<Column>)
    ensures |r| == FixedColumnCount + 3 * maxPeople
  {
    FixedColumns() + PersonColumns(maxPeople)
  }

  /** The header row. */
  function Headers(maxPeople: nat): seq<string> {
    Map(ColumnName, Columns(maxPeople))
  }

  // ----- Cells -----

  /** `xs?.[i] || ''` */
  function At(xs: seq<string>, i: int): string {
    if 0 <= i < |xs| then xs[i] else ""
  }

  /** A platform column: the first link listed under the platform, if any. */
  function PlatformCell(social: SocialMedia, platform: string): string {
    match social
    case Keyed(byPlatform) =>
      if platform in byPlatform && |byPlatform[platform]| > 0 then byPlatform[platform][0] else ""
    case Listed(_) => ""
  }

  /** The people columns of person number `n`, counted from 1. */
  function PersonCell(people: seq<Scrape.Person>, f: Family, n: nat): string {
    if 1 <= n <= |people| then
      var person := people[n - 1];
      match f
      case PersonName => person.name
      case PersonEmails => Join(person.emails, "; ")
      case PersonPhones => Join(person.phones, "; ")
      case _ => ""
    else ""
  }

  /** What column `c` of the row of `result` holds. */
  function Cell(result: ResultRecord, c: Column): string {
    match c
    case Domain => result.domain
    case Platform(p) => PlatformCell(result.socialMedia, p)
    case Numbered(f, n) =>
      match f
      case GeneralEmail => At(result.generalEmails, n - 1)
      case GeneralPhone => At(result.generalPhones, n - 1)
      case ContactForm => At(result.contactForms, n - 1)
      case _ => PersonCell(result.people, f, n)
  }

  /** `row` holds, under the header of each column of `cols`, that column's cell,
      and nothing else. */
  ghost predicate Filled(row: map<string, string>, result: ResultRecord, cols: seq<Column>) {
    && (forall c :: c in cols ==> ColumnName(c) in row && row[ColumnName(c)] == Cell(result, c))
    && (forall k :: k in row <==> k in Map(ColumnName, cols))
  }

  /** Setting one more column keeps every earlier cell, because headers of known
      columns never clash. */
  lemma FillCell(row: map<string, string>, result: ResultRecord, cols: seq<Column>, c: Column)
    requires Filled(row, result, cols)
    requires forall d :: d in cols ==> Known(d)
    requires Known(c)
    ensures Filled(row[ColumnName(c) := Cell(result, c)], result, cols + [c])
  {
    var row' := row[ColumnName(c) := Cell(result, c)];
    forall d | d in cols + [c]
      ensures ColumnName(d) in row' && row'[ColumnName(d)] == Cell(result, d)
    {
      if d != c {
        if ColumnName(d) == ColumnName(c) {
          ColumnNameInjective(d, c);
        }
      }
    }
    MapSnoc(ColumnName, cols, c);
  }

  // ----- Properties of the header row -----

  lemma ColumnsKnown(maxPeople: nat)
    ensures forall c :: c in Columns(maxPeople) ==> Known(c)
  {
    forall c | c in Columns(maxPeople)
      ensures Known(c)
    {
      if c in FixedColumns() && c.Platform? {
        assert c in PlatformColumns(SocialPlatforms);
      }
    }
  }

  lemma FixedColumnsDistinct()
    ensures NoDup(FixedColumns())
  {
    var cols := FixedColumns();
    forall i, j | 0 <= i < j < |cols|
      ensures cols[i] != cols[j]
    {
      if 7 <= i < 14 && 7 <= j < 14 {
        assert cols[i] == Platform(SocialPlatforms[i - 7]);
        assert cols[j] == Platform(SocialPlatforms[j - 7]);
      }
    }
  }

  lemma ColumnsDistinct(maxPeople: nat)
    ensures NoDup(Columns(maxPeople))
  {
    var fixed, people := FixedColumns(), PersonColumns(maxPeople);
    FixedColumnsDistinct();
    PersonColumnsDistinct(maxPeople);
    forall i, j | 0 <= i < j < |fixed + people|
      ensures (fixed + people)[i] != (fixed + people)[j]
    {
      if i < |fixed| <= j {
        assert (fixed + people)[j] in people;
        assert !IsPersonColumn(fixed[i]);
      }
    }
  }

  /** The header row has no repeated name, so each header picks out one cell. */
  lemma HeadersDistinct(maxPeople: nat)
    ensures NoDup(Headers(maxPeople))
  {
    var cols := Columns(maxPeople);
    ColumnsDistinct(maxPeople);
    ColumnsKnown(maxPeople);
    forall i, j | 0 <= i < j < |cols|
      ensures ColumnName(cols[i]) != ColumnName(cols[j])
    {
      if ColumnName(cols[i]) == ColumnName(cols[j]) {
        ColumnNameInjective(cols[i], cols[j]);
      }
    }
  }

  /** Sixteen fixed headers, then three per person. */
  lemma HeaderLayout(maxPeople: nat)
    ensures |Headers(maxPeople)| == FixedColumnCount + 3 * maxPeople
    ensures Headers(maxPeople)[0] == "Domain"
    ensures forall i :: 0 <= i < maxPeople ==>
      && Headers(maxPeople)[FixedColumnCount + 3 * i] == "Person_" + NatToString(i + 1) + "_Name"
      && Headers(maxPeople)[FixedColumnCount + 3 * i + 1] == "Person_" + NatToString(i + 1) + "_Emails"
      && Headers(maxPeople)[FixedColumnCount + 3 * i + 2] == "Person_" + NatToString(i + 1) + "_Phones"
  {
    forall i | 0 <= i < maxPeople
      ensures Headers(maxPeople)[FixedColumnCount + 3 * i] == "Person_" + NatToString(i + 1) + "_Name"
      ensures Headers(maxPeople)[FixedColumnCount + 3 * i + 1] == "Person_" + NatToString(i + 1) + "_Emails"
      ensures Headers(maxPeople)[FixedColumnCount + 3 * i + 2] == "Person_" + NatToString(i + 1) + "_Phones"
    {
      PersonHeadersAt(maxPeople, i);
    }
  }

  lemma PersonHeadersAt(maxPeople: nat, i: nat)
    requires i < maxPeople
    ensures Headers(maxPeople)[FixedColumnCount + 3 * i] == "Person_" + NatToString(i + 1) + "_Name"
    ensures Headers(maxPeople)[FixedColumnCount + 3 * i + 1] == "Person_" + NatToString(i + 1) + "_Emails"
    ensures Headers(maxPeople)[FixedColumnCount + 3 * i + 2] == "Person_" + NatToString(i + 1) + "_Phones"
  {
    var cols := Columns(maxPeople);
    PersonColumnAt(maxPeople, i);
    assert cols[FixedColumnCount + 3 * i] == Numbered(PersonName, i + 1);
    assert cols[FixedColumnCount + 3 * i + 1] == Numbered(PersonEmails, i + 1);
    assert cols[FixedColumnCount + 3 * i + 2] == Numbered(PersonPhones, i + 1);
  }

  lemma {:induction false} PersonColumnAt(maxPeople: nat, i: nat)
    requires i < maxPeople
    ensures PersonColumns(maxPeople)[3 * i] == Numbered(PersonName, i + 1)
    ensures PersonColumns(maxPeople)[3 * i + 1] == Numbered(PersonEmails, i + 1)
    ensures PersonColumns(maxPeople)[3 * i + 2] == Numbered(PersonPhones, i + 1)
  {
    if i < maxPeople - 1 {
      PersonColumnAt(maxPeople - 1, i);
    }
  }

  // ----- Building the export -----

  /** `Math.max(...results.map(r => r.people?.length || 0))` */
  function MaxPeople(results: seq<ResultRecord>): (m: nat)
    ensures forall r :: r in results ==> |r.people| <= m
    ensures results != [] ==> exists r :: r in results && |r.people| == m
    ensures results == [] ==> m == 0
  {
    if results == [] then 0
    else
      var rest := MaxPeople(results[1..]);
      assert forall r :: r in results ==> r == results[0] || r in results[1..];
      if |results[0].people| >= rest then |results[0].people| else rest
  }

  /** Every person of every result gets its own columns. */
  lemma PeopleAllExported(results: seq<ResultRecord>, j: nat, i: nat)
    requires j < |results| && i < |results[j].people|
    ensures Numbered(PersonName, i + 1) in Columns(MaxPeople(results))
    ensures Numbered(PersonEmails, i + 1) in Columns(MaxPeople(results))
    ensures Numbered(PersonPhones, i + 1) in Columns(MaxPeople(results))
  {
    var m := MaxPeople(results);
    assert results[j] in results;
    PersonColumnAt(m, i);
    assert PersonColumns(m)[3 * i] in Columns(m);
    assert PersonColumns(m)[3 * i + 1] in Columns(m);
    assert PersonColumns(m)[3 * i + 2] in Columns(m);
  }

  /** The header row, `Person_i_…` pushed three at a time. */
  method BuildHeaders(maxPeople: nat) returns (headers: seq<string>)
    ensures headers == Headers(maxPeople)
  {
    headers := ["Domain"]
      + ["General_Email_1", "General_Email_2", "General_Email_3"]
      + ["General_Phone_1", "General_Phone_2", "General_Phone_3"]
      + Map(Capitalize, SocialPlatforms)
      + ["Contact_Form_1", "Contact_Form_2"];
    FixedHeaders();
    PlatformNames();
    for i := 1 to maxPeople + 1
      invariant headers == Headers(i - 1)
    {
      HeadersSnoc(i);
      headers := headers + ["Person_" + NatToString(i) + "_Name", "Person_" + NatToString(i) + "_Emails", "Person_" + NatToString(i) + "_Phones"];
    }
  }

  lemma HeadersSnoc(m: nat)
    requires m >= 1
    ensures Headers(m) == Headers(m - 1)
      + ["Person_" + NatToString(m) + "_Name", "Person_" + NatToString(m) + "_Emails", "Person_" + NatToString(m) + "_Phones"]
  {
    var added := PersonTriple(m);
    assert Columns(m) == Columns(m - 1) + added;
    MapAppend(ColumnName, Columns(m - 1), added);
  }

  lemma FixedHeaders()
    ensures Headers(0) == ["Domain"]
      + ["General_Email_1", "General_Email_2", "General_Email_3"]
      + ["General_Phone_1", "General_Phone_2", "General_Phone_3"]
      + ["Linkedin", "Facebook", "Twitter", "Instagram", "Youtube", "Tiktok", "Pinterest"]
      + ["Contact_Form_1", "Contact_Form_2"]
  {
    var emails, phones := Run(GeneralEmail, EmailColumns), Run(GeneralPhone, PhoneColumns);
    var platforms, forms := PlatformColumns(SocialPlatforms), Run(ContactForm, FormColumns);
    var parts := Map(ColumnName, [Domain]) + Map(ColumnName, emails) + Map(ColumnName, phones)
      + Map(ColumnName, platforms) + Map(ColumnName, forms);
    assert Headers(0) == parts by {
      assert Columns(0) == [Domain] + emails + phones + platforms + forms;
      MapAppend(ColumnName, [Domain] + emails + phones + platforms, forms);
      MapAppend(ColumnName, [Domain] + emails + phones, platforms);
      MapAppend(ColumnName, [Domain] + emails, phones);
      MapAppend(ColumnName, [Domain], emails);
    }
    GeneralNames();
    assert Map(ColumnName, platforms) == Map(Capitalize, SocialPlatforms);
    PlatformNames();
    assert Map(ColumnName, [Domain]) == ["Domain"];
  }

  /** The capitalised platform headers, written out. */
  lemma PlatformNames()
    ensures Map(Capitalize, SocialPlatforms)
         == ["Linkedin", "Facebook", "Twitter", "Instagram", "Youtube", "Tiktok", "Pinterest"]
  {
    assert Capitalize("linkedin") == "Linkedin";
    assert Capitalize("facebook") == "Facebook";
    assert Capitalize("twitter") == "Twitter";
    assert Capitalize("instagram") == "Instagram";
    assert Capitalize("youtube") == "Youtube";
    assert Capitalize("tiktok") == "Tiktok";
    assert Capitalize("pinterest") == "Pinterest";
  }

  /** The headers of the numbered general columns, written out. */
  lemma GeneralNames()
    ensures Map(ColumnName, Run(GeneralEmail, EmailColumns))
         == ["General_Email_1", "General_Email_2", "General_Email_3"]
    ensures Map(ColumnName, Run(GeneralPhone, PhoneColumns))
         == ["General_Phone_1", "General_Phone_2", "General_Phone_3"]
    ensures Map(ColumnName, Run(ContactForm, FormColumns)) == ["Contact_Form_1", "Contact_Form_2"]
  {
    RunNames(GeneralEmail);
    RunNames(GeneralPhone);
    RunNames(ContactForm);
    assert Prefix(GeneralEmail) + "1" == "General_Email_1";
    assert Prefix(GeneralEmail) + "2" == "General_Email_2";
    assert Prefix(GeneralEmail) + "3" == "General_Email_3";
    assert Prefix(GeneralPhone) + "1" == "General_Phone_1";
    assert Prefix(GeneralPhone) + "2" == "General_Phone_2";
    assert Prefix(GeneralPhone) + "3" == "General_Phone_3";
    assert Prefix(ContactForm) + "1" == "Contact_Form_1";
    assert Prefix(ContactForm) + "2" == "Contact_Form_2";
  }

  lemma RunNames(f: Family)
    requires f == GeneralEmail || f == GeneralPhone || f == ContactForm
    ensures Map(ColumnName, Run(f, 3)) == [Prefix(f) + "1", Prefix(f) + "2", Prefix(f) + "3"]
    ensures Map(ColumnName, Run(f, 2)) == [Prefix(f) + "1", Prefix(f) + "2"]
  {
    assert NatToString(1) == "1" && NatToString(2) == "2" && NatToString(3) == "3";
    assert Suffix(f) == [];
    var names := Map(ColumnName, Run(f, 3));
    assert names[0] == Prefix(f) + NatToString(1) + [];
    assert names[0] == Prefix(f) + "1";
    assert names[1] == Prefix(f) + NatToString(2) + [];
    assert names[1] == Prefix(f) + "2";
    assert names[2] == Prefix(f) + NatToString(3) + [];
    assert names[2] == Prefix(f) + "3";
    assert |names| == 3;
    assert Run(f, 2) == Run(f, 3)[..2];
  }

  lemma RunSnoc(f: Family, n: nat)
    ensures Run(f, n + 1) == Run(f, n) + [Numbered(f, n + 1)]
  {
  }

  lemma UnsuffixedName(f: Family, n: nat)
    requires f == GeneralEmail || f == GeneralPhone || f == ContactForm
    ensures ColumnName(Numbered(f, n)) == Prefix(f) + NatToString(n)
  {
    assert Suffix(f) == [];
    assert Prefix(f) + NatToString(n) + [] == Prefix(f) + NatToString(n);
  }

  /** The list a numbered general column reads from. */
  function GeneralList(result: ResultRecord, f: Family): seq<string> {
    match f
    case GeneralEmail => result.generalEmails
    case GeneralPhone => result.generalPhones
    case _ => result.contactForms
  }

  /** One row object, filled field by field. */
  method BuildRow(result: ResultRecord, maxPeople: nat) returns (row: map<string, string>)
    ensures Filled(row, result, Columns(maxPeople))
  {
    row := map[];
    FillCell(row, result, [], Domain);
    row := row["Domain" := result.domain];
    row := FillNumbered(row, result, GeneralEmail, EmailColumns, [Domain]);
    row := FillNumbered(row, result, GeneralPhone, PhoneColumns, [Domain] + Run(GeneralEmail, EmailColumns));
    row := FillPlatforms(row, result, [Domain] + Run(GeneralEmail, EmailColumns) + Run(GeneralPhone, PhoneColumns));
    row := FillNumbered(row, result, ContactForm, FormColumns,
      [Domain] + Run(GeneralEmail, EmailColumns) + Run(GeneralPhone, PhoneColumns) + PlatformColumns(SocialPlatforms));
    row := FillPeople(row, result, maxPeople);
  }

  /** `for (i = 0; i < count; i++) row[`<prefix>${i + 1}`] = list?.[i] || ''` */
  method FillNumbered(row: map<string, string>, result: ResultRecord, f: Family, count: nat, ghost before: seq<Column>)
    returns (filled: map<string, string>)
    requires f == GeneralEmail || f == GeneralPhone || f == ContactForm
    requires forall d :: d in before ==> Known(d)
    requires Filled(row, result, before)
    ensures Filled(filled, result, before + Run(f, count))
  {
    var list := GeneralList(result, f);
    filled := row;
    ghost var done := before;
    assert done == before + Run(f, 0);
    for i := 0 to count
      invariant done == before + Run(f, i)
      invariant forall d :: d in done ==> Known(d)
      invariant Filled(filled, result, done)
    {
      FillCell(filled, result, done, Numbered(f, i + 1));
      UnsuffixedName(f, i + 1);
      RunSnoc(f, i);
      filled := filled[Prefix(f) + NatToString(i + 1) := At(list, i)];
      done := done + [Numbered(f, i + 1)];
    }
  }

  /** One column per platform: the first link filed under it, or `''`. */
  method FillPlatforms(row: map<string, string>, result: ResultRecord, ghost before: seq<Column>)
    returns (filled: map<string, string>)
    requires forall d :: d in before ==> Known(d)
    requires Filled(row, result, before)
    ensures Filled(filled, result, before + PlatformColumns(SocialPlatforms))
  {
    filled := row;
    ghost var done := before;
    assert done == before + PlatformColumns(SocialPlatforms[..0]);
    for j := 0 to |SocialPlatforms|
      invariant done == before + PlatformColumns(SocialPlatforms[..j])
      invariant forall d :: d in done ==> Known(d)
      invariant Filled(filled, result, done)
    {
      var platform := SocialPlatforms[j];
      FillCell(filled, result, done, Platform(platform));
      PrefixSnoc(SocialPlatforms, j);
      MapSnoc(p => Platform(p), SocialPlatforms[..j], platform);
      var link := if result.socialMedia.Keyed? && platform in result.socialMedia.byPlatform
        && |result.socialMedia.byPlatform[platform]| > 0
        then result.socialMedia.byPlatform[platform][0] else "";
      filled := filled[Capitalize(platform) := link];
      done := done + [Platform(platform)];
    }
    assert SocialPlatforms[..|SocialPlatforms|] == SocialPlatforms;
  }

  /** Name, joined emails and joined phones of the i-th person, or `''` past the
      result's own people. */
  method FillPeople(row: map<string, string>, result: ResultRecord, maxPeople: nat)
    returns (filled: map<string, string>)
    requires Filled(row, result, FixedColumns())
    ensures Filled(filled, result, Columns(maxPeople))
  {
    filled := row;
    ghost var done := FixedColumns();
    assert done == Columns(0);
    for i := 0 to maxPeople
      invariant done == Columns(i)
      invariant Filled(filled, result, done)
    {
      ColumnsKnown(i);
      assert Columns(i + 1) == Columns(i) + PersonTriple(i + 1);
      filled := FillPerson(filled, result, i, done);
      done := done + PersonTriple(i + 1);
    }
  }

  /** The three columns of person number `n`. */
  function PersonTriple(n: nat): seq<Column> {
    [Numbered(PersonName, n), Numbered(PersonEmails, n), Numbered(PersonPhones, n)]
  }

  lemma KnownSnoc(cols: seq<Column>, c: Column)
    requires forall d :: d in cols ==> Known(d)
    requires Known(c)
    ensures forall d :: d in cols + [c] ==> Known(d)
  {
  }

  lemma FillTriple(row: map<string, string>, result: ResultRecord, before: seq<Column>, n: nat)
    requires forall d :: d in before ==> Known(d)
    requires Filled(row, result, before)
    ensures Filled(row
      [ColumnName(Numbered(PersonName, n)) := Cell(result, Numbered(PersonName, n))]
      [ColumnName(Numbered(PersonEmails, n)) := Cell(result, Numbered(PersonEmails, n))]
      [ColumnName(Numbered(PersonPhones, n)) := Cell(result, Numbered(PersonPhones, n))],
      result, before + PersonTriple(n))
  {
    var c1, c2, c3 := Numbered(PersonName, n), Numbered(PersonEmails, n), Numbered(PersonPhones, n);
    var cols1 := before + [c1];
    var cols2 := cols1 + [c2];
    KnownSnoc(before, c1);
    KnownSnoc(cols1, c2);
    FillCell(row, result, before, c1);
    var row1 := row[ColumnName(c1) := Cell(result, c1)];
    FillCell(row1, result, cols1, c2);
    var row2 := row1[ColumnName(c2) := Cell(result, c2)];
    FillCell(row2, result, cols2, c3);
    assert cols2 + [c3] == before + PersonTriple(n);
  }

  /** `const person = result.people?.[i]` and its three cells. */
  method FillPerson(row: map<string, string>, result: ResultRecord, i: nat, ghost before: seq<Column>)
    returns (filled: map<string, string>)
    requires forall d :: d in before ==> Known(d)
    requires Filled(row, result, before)
    ensures Filled(filled, result, before + PersonTriple(i + 1))
  {
    var name, emails, phones := "", "", "";
    if i < |result.people| {
      var person := result.people[i];
      name, emails, phones := person.name, Join(person.emails, "; "), Join(person.phones, "; ");
    }
    var n := i + 1;
    assert Cell(result, Numbered(PersonName, n)) == name;
    assert Cell(result, Numbered(PersonEmails, n)) == emails;
    assert Cell(result, Numbered(PersonPhones, n)) == phones;
    FillTriple(row, result, before, n);
    filled := row["Person_" + NatToString(n) + "_Name" := name];
    filled := filled["Person_" + NatToString(n) + "_Emails" := emails];
    filled := filled["Person_" + NatToString(n) + "_Phones" := phones];
  }

  // ----- The table handed to the CSV writer -----

  /** `{ fields, data }` as passed to the CSV writer. */
  datatype Table = Table(fields: seq<string>, data: seq<seq<string>>)

  /** `row[h] !== undefined ? row[h] : ''` */
  function Lookup(row: map<string, string>, h: string): string {
    if h in row then row[h] else ""
  }

  /** `headers.map(h => …)`: the cells of one row in header order. */
  function Cells(headers: seq<string>, row: map<string, string>): (r: seq<string>)
    ensures |r| == |headers|
    ensures forall k :: 0 <= k < |headers| ==> r[k] == Lookup(row, headers[k])
  {
    Map(h => Lookup(row, h), headers)
  }

  /** `rows.map(row => headers.map(…))` */
  function AllCells(headers: seq<string>, rows: seq<map<string, string>>): (r: seq<seq<string>>)
    ensures |r| == |rows|
    ensures forall j :: 0 <= j < |rows| ==> r[j] == Cells(headers, rows[j])
  {
    Map(row => Cells(headers, row), rows)
  }

  /** The table of `results`: the header row for the largest number of people and,
      for each result in order, one cell per header holding that column's value. */
  ghost predicate IsExportOf(table: Table, results: seq<ResultRecord>) {
    var m := MaxPeople(results);
    && table.fields == Headers(m)
    && |table.data| == |results|
    && forall j :: 0 <= j < |results| ==> RowReadsBack(table.data[j], results[j], m)
  }

  /** Everything the export does before the CSV text is produced: nothing for no
      results, otherwise the header row and one row of cells per result. */
  method ExportToCsv(results: seq<ResultRecord>) returns (table: Option<Table>)
    ensures table.None? <==> results == []
    ensures table.Some? ==> IsExportOf(table.value, results)
  {
    if |results| == 0 {
      return None;
    }
    var maxPeople := MaxPeople(results);
    var headers := BuildHeaders(maxPeople);
    var rows := BuildRows(results, maxPeople, headers);
    var data := AllCells(headers, rows);
    table := Some(Table(headers, data));
  }

  /** `results.map(result => row)`: one row object per result. */
  method BuildRows(results: seq<ResultRecord>, maxPeople: nat, headers: seq<string>)
    returns (rows: seq<map<string, string>>)
    requires headers == Headers(maxPeople)
    ensures |rows| == |results|
    ensures forall j :: 0 <= j < |results| ==> RowReadsBack(Cells(headers, rows[j]), results[j], maxPeople)
  {
    rows := [];
    for j := 0 to |results|
      invariant |rows| == j
      invariant forall i :: 0 <= i < j ==> RowReadsBack(Cells(headers, rows[i]), results[i], maxPeople)
    {
      var row := BuildRow(results[j], maxPeople);
      CellsOfFilled(row, results[j], maxPeople);
      ghost var before := rows;
      rows := rows + [row];
      forall i | 0 <= i < j + 1
        ensures RowReadsBack(Cells(headers, rows[i]), results[i], maxPeople)
      {
        if i < j {
          assert rows[i] == before[i];
        }
      }
    }
  }

  /** `cells` holds, in header order, the value of each column for `result`. */
  ghost predicate RowReadsBack(cells: seq<string>, result: ResultRecord, maxPeople: nat) {
    var cols := Columns(maxPeople);
    |cells| == |cols| && forall k :: 0 <= k < |cols| ==> cells[k] == Cell(result, cols[k])
  }

  lemma CellsOfFilled(row: map<string, string>, result: ResultRecord, maxPeople: nat)
    requires Filled(row, result, Columns(maxPeople))
    ensures RowReadsBack(Cells(Headers(maxPeople), row), result, maxPeople)
  {
    var cols := Columns(maxPeople);
    var cells := Cells(Headers(maxPeople), row);
    forall k | 0 <= k < |cols|
      ensures cells[k] == Cell(result, cols[k])
    {
      assert cols[k] in cols;
    }
  }

  // ----- What the export promises -----

  /** Only the first three emails, the first three phones and the first two forms
      get a column, and person columns run from 1 to the largest number of people. */
  lemma NumberedColumnsBounded(maxPeople: nat)
    ensures forall c :: c in Columns(maxPeople) && c.Numbered? ==>
      && c.n >= 1
      && (c.family == GeneralEmail ==> c.n <= EmailColumns)
      && (c.family == GeneralPhone ==> c.n <= PhoneColumns)
      && (c.family == ContactForm ==> c.n <= FormColumns)
      && (IsPersonColumn(c) ==> c.n <= maxPeople)
  {
    forall c | c in Columns(maxPeople) && c.Numbered?
      ensures c.n >= 1 && (c.family == GeneralEmail ==> c.n <= EmailColumns)
      ensures c.family == GeneralPhone ==> c.n <= PhoneColumns
      ensures c.family == ContactForm ==> c.n <= FormColumns
      ensures IsPersonColumn(c) ==> c.n <= maxPeople
    {
      if c in FixedColumns() {
        var platforms := PlatformColumns(SocialPlatforms);
        assert c !in platforms;
      }
    }
  }

  /** The scrape endpoint returns `socialMedia` as a flat list of links, and a list
      has no entry per platform: every platform cell of such a result is empty. */
  lemma ListedSocialsExportBlank(table: Table, results: seq<ResultRecord>, j: nat)
    requires IsExportOf(table, results)
    requires j < |results| && results[j].socialMedia.Listed?
    ensures forall k :: FirstPlatformColumn <= k < FirstPlatformColumn + |SocialPlatforms| ==> table.data[j][k] == ""
  {
    forall k | FirstPlatformColumn <= k < FirstPlatformColumn + |SocialPlatforms|
      ensures table.data[j][k] == ""
    {
      PlatformColumnAt(MaxPeople(results), k - FirstPlatformColumn);
      ExportedCell(table, results, j, k);
      PlatformCellBlank(results[j], Columns(MaxPeople(results))[k]);
    }
  }

  /** The platform columns sit after the domain, the emails and the phones. */
  lemma PlatformColumnAt(maxPeople: nat, i: nat)
    requires i < |SocialPlatforms|
    ensures Columns(maxPeople)[FirstPlatformColumn + i] == Platform(SocialPlatforms[i])
    ensures Headers(maxPeople)[FirstPlatformColumn + i] == Capitalize(SocialPlatforms[i])
  {
    var prefix := [Domain] + Run(GeneralEmail, EmailColumns) + Run(GeneralPhone, PhoneColumns);
    assert |prefix| == FirstPlatformColumn;
    assert Columns(maxPeople) == prefix + PlatformColumns(SocialPlatforms) + (Run(ContactForm, FormColumns) + PersonColumns(maxPeople));
  }

  lemma ExportedCell(table: Table, results: seq<ResultRecord>, j: nat, k: nat)
    requires IsExportOf(table, results)
    requires j < |results| && k < |table.fields|
    ensures k < |Columns(MaxPeople(results))|
    ensures table.data[j][k] == Cell(results[j], Columns(MaxPeople(results))[k])
  {
  }

  lemma PlatformCellBlank(result: ResultRecord, c: Column)
    requires result.socialMedia.Listed? && c.Platform?
    ensures Cell(result, c) == ""
  {
  }
}
