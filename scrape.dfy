/** The contact-page scraper route (pages/api/scrape.js): the request checks,
    the reaction to the upstream webscraper's reply, and the extraction of
    contact forms, person cards and general contacts from a parsed page.

    The parsed page is abstract: each element of `body *` is a record holding
    what the route reads of it (its text, the addresses of its `mailto:` and
    `tel:` links, its social-network link hrefs, the matches of the e-mail and
    phone regular expressions in its text, and the texts of its first heading,
    emphasis and paragraph). */
module Scrape {
  import opened Collections
  import opened Text
  import opened Web

  // ---------------------------------------------------------------- cleaning

  /** Substrings that mark a placeholder address. */
  const Blacklist: seq<string> :=
    ["example.com", "test.com", "domain.com", "yoursite.com", "company.com", "sentry.io", "placeholder.com"]

  /** `cleanEmail`: the lower-cased, trimmed address, or `None` (`null`) when it
      contains a blacklisted substring. */
  function CleanEmail(email: string): (r: Option<string>)
    ensures r.Some? <==> forall k :: k in Blacklist ==> !Contains(Trim(Lower(email)), k)
    ensures r.Some? ==> Trimmed(r.value) && IsLowerCase(r.value) && |r.value| <= |email|
    ensures r.Some? ==> r.value == Trim(Lower(email))
  {
    var cleaned := Trim(Lower(email));
    ContainsAnyMeans(cleaned, Blacklist);
    TrimOfLowerCase(Lower(email));
    if ContainsAny(cleaned, Blacklist) then None else Some(cleaned)
  }

  /** Cleaning an address a second time changes nothing. */
  lemma CleanEmailIdempotent(email: string)
    requires CleanEmail(email).Some?
    ensures CleanEmail(CleanEmail(email).value) == CleanEmail(email)
  {
    var c := CleanEmail(email).value;
    LowerOfLowerCase(c);
    TrimOfTrimmed(c);
  }

  lemma BlacklistShape(k: string)
    requires k in Blacklist
    ensures k != [] && IsLowerCase(k) && Trimmed(k)
  {
    assert forall i :: 0 <= i < |k| ==> 'a' <= k[i] <= 'z' || k[i] == '.';
  }

  /** Any address ending in a blacklisted substring is rejected, whatever
      precedes it: `info@mycompany.com` goes because it contains `company.com`. */
  lemma CleanEmailRejectsBlockedSuffix(local: string, k: string)
    requires k in Blacklist && Trimmed(local)
    ensures CleanEmail(local + k).None?
  {
    BlacklistShape(k);
    CleanedKeepsSuffix(local, k);
  }

  lemma CleanedKeepsSuffix(local: string, k: string)
    requires k != [] && IsLowerCase(k) && Trimmed(k) && Trimmed(local)
    ensures Contains(Trim(Lower(local + k)), k)
  {
    LowerAppend(local, k);
    LowerOfLowerCase(k);
    var x := Lower(local) + k;
    LowerKeepsTrimmed(local);
    assert x[|x| - 1] == k[|k| - 1];
    if local != [] {
      assert x[0] == Lower(local)[0];
    } else {
      assert x == k;
    }
    TrimOfTrimmed(x);
    ContainsSuffix(Lower(local), k);
  }

  /** The characters `[^\d+()-.\s]` does not remove: digits, `+`, `(`, the range
      `)` to `.` (which brings `*` and `,` along) and white space. */
  predicate IsPhoneChar(c: char) {
    IsDigit(c) || c == '+' || c == '(' || (')' <= c <= '.') || IsSpace(c)
  }

  predicate AllPhoneChars(s: string) {
    forall i :: 0 <= i < |s| ==> IsPhoneChar(s[i])
  }

  /** `s.replace(/[^\d+()-.\s]/g, '')` */
  function KeepPhoneChars(s: string): (r: string)
    ensures AllPhoneChars(r)
    ensures Digits(r) == Digits(s)
    ensures AllPhoneChars(s) ==> r == s
    decreases |s|
  {
    if s == [] then []
    else
      var rest := KeepPhoneChars(s[1..]);
      assert ([s[0]] + rest)[1..] == rest;
      if IsPhoneChar(s[0]) then [s[0]] + rest else rest
  }

  /** One character is kept exactly when it is a phone character. */
  lemma KeepPhoneCharsSingle(c: char)
    ensures KeepPhoneChars([c]) == if IsPhoneChar(c) then [c] else []
  {
    assert [c][1..] == [];
  }

  /** The filter works character by character and keeps the order: filtering
      a concatenation concatenates the filtered pieces. */
  lemma {:induction false} KeepPhoneCharsAppend(a: string, b: string)
    ensures KeepPhoneChars(a + b) == KeepPhoneChars(a) + KeepPhoneChars(b)
    decreases |a|
  {
    if a == [] {
      assert a + b == b;
    } else {
      assert (a + b)[0] == a[0];
      assert (a + b)[1..] == a[1..] + b;
      KeepPhoneCharsAppend(a[1..], b);
    }
  }

  lemma TrimKeepsPhoneChars(s: string)
    requires AllPhoneChars(s)
    ensures AllPhoneChars(Trim(s))
  {
    var i := TrimIsSlice(s);
  }

  /** The digit strings `cleanPhone` refuses: fewer than 10 or more than 15
      digits, all `0`, all `1` or all `2`, or a run `000` or `111`. */
  predicate RejectedDigits(d: string) {
    || |d| < 10 || |d| > 15
    || AllChar(d, '0') || AllChar(d, '1') || AllChar(d, '2')
    || Contains(d, "000") || Contains(d, "111")
  }

  /** `cleanPhone`: the number with its formatting kept (only foreign
      characters are removed, and the ends trimmed), or `None` (`null`) when
      its digits are refused. */
  function CleanPhone(phone: string): (r: Option<string>)
    ensures r.None? <==> RejectedDigits(Digits(phone))
    ensures r.Some? ==> AllPhoneChars(r.value) && Trimmed(r.value)
    ensures r.Some? ==> Digits(r.value) == Digits(phone)
    ensures r.Some? ==> 10 <= |Digits(r.value)| <= 15 && |r.value| >= 10
    ensures r.Some? ==> r.value == Trim(KeepPhoneChars(phone))
  {
    var kept := KeepPhoneChars(phone);
    var cleaned := Trim(kept);
    DigitsOfTrim(kept);
    TrimKeepsPhoneChars(kept);
    if RejectedDigits(Digits(cleaned)) then None else Some(cleaned)
  }

  /** Cleaning a number a second time changes nothing. */
  lemma CleanPhoneIdempotent(phone: string)
    requires CleanPhone(phone).Some?
    ensures CleanPhone(CleanPhone(phone).value) == CleanPhone(phone)
  {
    var c := CleanPhone(phone).value;
    TrimOfTrimmed(c);
  }

  /** A number already written with the kept characters and trimmed comes
      back exactly as written: it is not reduced to its digits. */
  lemma CleanPhoneKeepsFormatting(phone: string)
    requires AllPhoneChars(phone) && Trimmed(phone)
    requires !RejectedDigits(Digits(phone))
    ensures CleanPhone(phone) == Some(phone)
  {
    TrimOfTrimmed(phone);
  }

  /** A number written only with kept characters loses nothing but its
      surrounding white space: `" (212) 555-0101"` comes back as
      `"(212) 555-0101"`. */
  lemma CleanPhoneOnlyTrims(phone: string)
    requires AllPhoneChars(phone)
    requires !RejectedDigits(Digits(phone))
    ensures CleanPhone(phone) == Some(Trim(phone))
  {
    var kept := KeepPhoneChars(phone);
    assert kept == phone;
    DigitsOfTrim(phone);
  }

  /** Only the repeated digits 0, 1 and 2 are refused: ten to fifteen copies
      of any other digit pass. */
  lemma CleanPhoneAcceptsOtherRepeats(phone: string, c: char)
    requires '3' <= c <= '9'
    requires 10 <= |phone| <= 15 && AllChar(phone, c)
    ensures CleanPhone(phone) == Some(phone)
  {
    assert AllPhoneChars(phone);
    assert phone[0] == c && phone[|phone| - 1] == c;
    DigitsOfAllDigits(phone);
    if Contains(phone, "000") {
      ContainsHead(phone, "000");
    }
    if Contains(phone, "111") {
      ContainsHead(phone, "111");
    }
    CleanPhoneKeepsFormatting(phone);
  }

  lemma {:induction false} DigitsOfAllDigits(s: string)
    requires forall i :: 0 <= i < |s| ==> IsDigit(s[i])
    ensures Digits(s) == s
    decreases |s|
  {
    if s != [] {
      DigitsOfAllDigits(s[1..]);
    }
  }

  // ------------------------------------------------------------- the reply

  datatype Person = Person(name: string, emails: seq<string>, phones: seq<string>)

  /** The five lists of the response body. */
  datatype Contacts = Contacts(
    generalEmails: seq<string>,
    generalPhones: seq<string>,
    socialMedia: seq<string>,
    contactForms: seq<string>,
    people: seq<Person>)

  const NoContacts := Contacts([], [], [], [], [])

  /** A response: its status and the body's `message`, `error` and lists, each
      `None` where the body has no such field. */
  datatype Reply = Reply(status: int, message: Option<string>, error: Option<string>, contacts: Option<Contacts>)

  const MissingKey := "API key not configured on server. Please check your .env file."
  const TooLargeMessage := "Website too large for processing (over 2MB limit). Try Quick Mode or specific subpages."
  const TooLargeError := "Website too large (2MB+ limit)"
  const ApiError := "API Error"
  const ServerError := "Server error"

  /** An upstream error text that says the page was too big. */
  predicate TooLarge(error: string) {
    error != [] && (Contains(error, "2MB") || Contains(error, "size") || Contains(error, "large"))
  }

  /** The response to a non-2xx upstream reply. */
  function UpstreamFailure(status: int, error: string): (r: Reply)
    ensures r.contacts == Some(NoContacts)
    ensures TooLarge(error) ==> r == Reply(200, Some(TooLargeMessage), Some(TooLargeError), Some(NoContacts))
    ensures !TooLarge(error) ==> r.status == status && r.error.None?
    ensures !TooLarge(error) && error != [] ==> r.message == Some(error)
    ensures error == [] ==> r.message == Some(ApiError)
  {
    if TooLarge(error) then Reply(200, Some(TooLargeMessage), Some(TooLargeError), Some(NoContacts))
    else Reply(status, Some(if error == [] then ApiError else error), None, Some(NoContacts))
  }

  // ------------------------------------------------------------ step 1: forms

  /** A `<form>`: its `action` and `method` attributes (`""` when absent) and
      its inner markup. */
  datatype Form = Form(action: string, httpMethod: string, markup: string)

  /** The field test: the lower-cased markup mentions `name` and one of
      `email`, `message`, `subject`, `phone`. */
  predicate HasContactFields(markup: string) {
    var m := Lower(markup);
    Contains(m, "name") && (Contains(m, "email") || Contains(m, "message") || Contains(m, "subject") || Contains(m, "phone"))
  }

  /** The upper-cased method, `GET` by default. */
  function FormVerb(f: Form): (v: string)
    ensures forall i :: 0 <= i < |v| ==> !IsLower(v[i])
    ensures f.httpMethod == [] ==> v == "GET"
    ensures f.httpMethod != [] ==> |v| == |f.httpMethod| && forall i :: 0 <= i < |v| ==> v[i] == UpperChar(f.httpMethod[i])
  {
    var m := if f.httpMethod == [] then "GET" else f.httpMethod;
    assert forall i :: 0 <= i < |"GET"| ==> !IsLower("GET"[i]);
    Upper(m)
  }

  /** The descriptor one form adds to `contactForms`, if any. */
  function FormEntry(f: Form, currentUrl: string, resolve: Resolver): (r: Option<string>)
    ensures r.Some? ==> HasContactFields(f.markup)
    ensures HasContactFields(f.markup) && f.action == [] ==> r.Some?
    ensures f.action != [] ==> (r.Some? <==> HasContactFields(f.markup) && AbsoluteHref(f.action, currentUrl, resolve).Some?)
  {
    if !HasContactFields(f.markup) then None
    else if f.action != [] then
      match AbsoluteHref(f.action, currentUrl, resolve)
      case Some(u) => Some(FormVerb(f) + ": " + u)
      case None => None
    else Some(FormVerb(f) + ": " + currentUrl + " (same page)")
  }

  /** A descriptor reads back as the method, `": "`, and the target: the
      resolved action, or the page itself marked `(same page)` when the form
      has no action. */
  lemma FormEntryReadsBack(f: Form, currentUrl: string, resolve: Resolver)
    requires FormEntry(f, currentUrl, resolve).Some?
    ensures var d := FormEntry(f, currentUrl, resolve).value;
      && (':' !in f.httpMethod ==> BeforeFirst(d, ':') == FormVerb(f))
      && d[..|FormVerb(f)| + 2] == FormVerb(f) + ": "
      && (f.action == [] ==> d[|FormVerb(f)| + 2..] == currentUrl + " (same page)")
      && (f.action != [] ==> d[|FormVerb(f)| + 2..] == AbsoluteHref(f.action, currentUrl, resolve).value)
  {
    var v := FormVerb(f);
    if ':' !in f.httpMethod {
      VerbHasNoColon(f);
    }
    if f.action == [] {
      var target := currentUrl + " (same page)";
      assert FormEntry(f, currentUrl, resolve).value == v + ": " + target;
      DescriptorSplits(v, target);
    } else {
      DescriptorSplits(v, AbsoluteHref(f.action, currentUrl, resolve).value);
    }
  }

  lemma DescriptorSplits(v: string, target: string)
    ensures var d := v + ": " + target;
      && (':' !in v ==> BeforeFirst(d, ':') == v)
      && d[..|v| + 2] == v + ": "
      && d[|v| + 2..] == target
  {
    var d := v + ": " + target;
    assert d == v + (": " + target);
    if ':' !in v {
      BeforeFirstAppend(v, ": " + target, ':');
    }
  }

  lemma VerbHasNoColon(f: Form)
    requires ':' !in f.httpMethod
    ensures ':' !in FormVerb(f)
  {
    var m := if f.httpMethod == [] then "GET" else f.httpMethod;
    forall i | 0 <= i < |m|
      ensures FormVerb(f)[i] != ':'
    {
    }
  }

  /** `FormEntry` for each form, in document order. */
  function FormEntries(forms: seq<Form>, currentUrl: string, resolve: Resolver): (r: seq<Option<string>>)
    ensures |r| == |forms|
    ensures forall i :: 0 <= i < |forms| ==> r[i] == FormEntry(forms[i], currentUrl, resolve)
    decreases |forms|
  {
    if forms == [] then []
    else FormEntries(forms[..|forms| - 1], currentUrl, resolve) + [FormEntry(forms[|forms| - 1], currentUrl, resolve)]
  }

  lemma FormEntriesSnoc(forms: seq<Form>, i: nat, currentUrl: string, resolve: Resolver)
    requires i < |forms|
    ensures FormEntries(forms[..i + 1], currentUrl, resolve)
         == FormEntries(forms[..i], currentUrl, resolve) + [FormEntry(forms[i], currentUrl, resolve)]
  {
    assert forms[..i + 1][..i] == forms[..i];
  }

  /** The final `contactForms` list. */
  function FormsOf(forms: seq<Form>, currentUrl: string, resolve: Resolver): (r: seq<string>)
    ensures NoDup(r)
    ensures forall d :: d in r <==> exists i :: 0 <= i < |forms| && FormEntry(forms[i], currentUrl, resolve) == Some(d)
  {
    var entries := FormEntries(forms, currentUrl, resolve);
    assert forall d :: Some(d) in entries <==> exists i :: 0 <= i < |forms| && entries[i] == Some(d);
    Dedup(Present(entries))
  }

  /** Step 1: every form is visited in document order and its descriptor, if
      any, added to the `contactForms` set. */
  method CollectForms(forms: seq<Form>, currentUrl: string, resolve: Resolver) returns (descriptors: seq<string>)
    ensures descriptors == FormsOf(forms, currentUrl, resolve)
  {
    var contactForms := new OrderedSet<string>();
    for i := 0 to |forms|
      invariant contactForms.Valid()
      invariant contactForms.items == AddAll([], Present(FormEntries(forms[..i], currentUrl, resolve)))
    {
      var entry := FormEntry(forms[i], currentUrl, resolve);
      FormEntriesSnoc(forms, i, currentUrl, resolve);
      AddPresentSnoc([], FormEntries(forms[..i], currentUrl, resolve), entry);
      if entry.Some? {
        contactForms.Add(entry.value);
      }
    }
    assert forms[..|forms|] == forms;
    descriptors := contactForms.items;
  }

  // ------------------------------------------------------- step 2: person cards

  /** What the route reads of one element of `body *`:
      its text;
      the addresses of its `a[href^="mailto:"]` descendants and the numbers
      of its `a[href^="tel:"]` descendants, prefix removed;
      the hrefs of its social-network anchors;
      whether the e-mail and the phone patterns `.test` its text (the shared
      `lastIndex` of the global patterns makes these independent inputs);
      the e-mail matches and the phone matches (both phone patterns, one list
      after the other) of its text;
      and the texts of its first heading, first `strong`/`b`/`.name`/`.title`/
      `.person-name` and first `p` (`""` when there is none). */
  datatype Element = Element(
    text: string,
    mailtos: seq<string>,
    tels: seq<string>,
    socials: seq<string>,
    emailSeen: bool,
    phoneSeen: bool,
    emailMatches: seq<string>,
    phoneMatches: seq<string>,
    heading: string,
    emphasis: string,
    paragraph: string)

  /** `cleanEmail` behind the callers' truthiness test: the empty address goes too. */
  function KeptEmail(email: string): (r: Option<string>)
    ensures r.Some? <==> CleanEmail(email).Some? && CleanEmail(email).value != []
    ensures r.Some? ==> r == CleanEmail(email)
  {
    match CleanEmail(email)
    case Some(e) => if e == [] then None else Some(e)
    case None => None
  }

  /** An e-mail sign (link or text) and a phone sign (link or text). */
  predicate Qualifies(e: Element) {
    (e.mailtos != [] || e.emailSeen) && (e.tels != [] || e.phoneSeen)
  }

  const NameNotFound := "Name not found"

  /** The name fallback chain: first heading, then first emphasis, then the
      first paragraph up to its first `,` or line break, each trimmed; the
      first non-empty one wins. */
  function PersonName(e: Element): (n: string)
    ensures n != []
    ensures Trim(e.heading) != [] ==> n == Trim(e.heading)
    ensures Trim(e.heading) == [] && Trim(e.emphasis) != [] ==> n == Trim(e.emphasis)
    ensures Trim(e.heading) == [] && Trim(e.emphasis) == [] ==>
      var p := Trim(BeforeFirst(BeforeFirst(e.paragraph, ','), '\n'));
      n == if p != [] then p else NameNotFound
  {
    var h := Trim(e.heading);
    if h != [] then h
    else
      var b := Trim(e.emphasis);
      if b != [] then b
      else
        var p := Trim(BeforeFirst(BeforeFirst(e.paragraph, ','), '\n'));
        if p != [] then p else NameNotFound
  }

  /** A name taken from the paragraph stops before its first `,` and its
      first line break. */
  lemma ParagraphNameHasNoBreak(e: Element)
    requires Trim(e.heading) == [] && Trim(e.emphasis) == []
    ensures ',' !in PersonName(e) && '\n' !in PersonName(e)
  {
    var x := BeforeFirst(BeforeFirst(e.paragraph, ','), '\n');
    assert ',' !in x && '\n' !in x;
    SliceKeepsAbsent(x, ',');
    SliceKeepsAbsent(x, '\n');
  }

  lemma SliceKeepsAbsent(x: string, c: char)
    requires c !in x
    ensures c !in Trim(x)
  {
    var i := TrimIsSlice(x);
    assert Trim(x) == x[i..i + |Trim(x)|];
  }

  function LinkEmails(e: Element): seq<string> {
    Present(Map(KeptEmail, e.mailtos))
  }

  function TextEmails(e: Element): seq<string> {
    Present(Map(KeptEmail, e.emailMatches))
  }

  function LinkPhones(e: Element): seq<string> {
    Present(Map(CleanPhone, e.tels))
  }

  function TextPhones(e: Element): seq<string> {
    Present(Map(CleanPhone, e.phoneMatches))
  }

  /** The person card one element yields, if any. */
  function Candidate(e: Element): (r: Option<Person>)
    ensures r.Some? ==> |e.text| <= 500 && Qualifies(e) && r.value.name != []
    ensures r.Some? ==> r.value.name == PersonName(e)
  {
    if |e.text| > 500 || !Qualifies(e) then None
    else
      var emails := Dedup(AddAll(LinkEmails(e), TextEmails(e)));
      var phones := Dedup(AddAll(LinkPhones(e), TextPhones(e)));
      if emails == [] || phones == [] then None
      else Some(Person(PersonName(e), emails, phones))
  }

  /** An element of at most 500 characters with an e-mail sign and a phone
      sign yields a person exactly when at least one address and at least one
      number survive cleaning. */
  lemma CandidateWhen(e: Element)
    ensures Candidate(e).Some? <==>
      && |e.text| <= 500 && Qualifies(e)
      && LinkEmails(e) + TextEmails(e) != []
      && LinkPhones(e) + TextPhones(e) != []
  {
    DedupEmpty(AddAll(LinkEmails(e), TextEmails(e)));
    DedupEmpty(AddAll(LinkPhones(e), TextPhones(e)));
    AddAllEmpty(LinkEmails(e), TextEmails(e));
    AddAllEmpty(LinkPhones(e), TextPhones(e));
  }

  /** A person's lists: no duplicates, exactly the surviving addresses and
      numbers of the element, the link ones first in link order. */
  lemma CandidateLists(e: Element)
    requires Candidate(e).Some?
    ensures var p := Candidate(e).value;
      && NoDup(p.emails) && NoDup(p.phones)
      && (forall x :: x in p.emails <==> x in LinkEmails(e) || x in TextEmails(e))
      && (forall x :: x in p.phones <==> x in LinkPhones(e) || x in TextPhones(e))
      && Dedup(LinkEmails(e)) <= p.emails
      && Dedup(LinkPhones(e)) <= p.phones
  {
    DedupKeepsPrefixOrder(LinkEmails(e), TextEmails(e));
    DedupKeepsPrefixOrder(LinkPhones(e), TextPhones(e));
  }

  lemma DedupKeepsPrefixOrder(links: seq<string>, texts: seq<string>)
    ensures Dedup(links) <= Dedup(AddAll(links, texts))
  {
    var all := AddAll(links, texts);
    assert all == links + all[|links|..];
    AddAllAppend([], links, all[|links|..]);
  }

  /** `personEmails` as the route builds it: cleaned link addresses pushed
      as they come, then cleaned text matches not yet listed. */
  method CollectPersonEmails(e: Element) returns (personEmails: seq<string>)
    ensures personEmails == AddAll(LinkEmails(e), TextEmails(e))
  {
    personEmails := PushLinkEmails(e.mailtos);
    personEmails := PushTextEmails(personEmails, e.emailMatches);
  }

  /** `mailto:` links, cleaned and pushed as they come. */
  method PushLinkEmails(mailtos: seq<string>) returns (emails: seq<string>)
    ensures emails == Present(Map(KeptEmail, mailtos))
  {
    emails := [];
    for j := 0 to |mailtos|
      invariant emails == Present(Map(KeptEmail, mailtos[..j]))
    {
      var email := KeptEmail(mailtos[j]);
      PrefixSnoc(mailtos, j);
      MapSnoc(KeptEmail, mailtos[..j], mailtos[j]);
      PresentSnoc(Map(KeptEmail, mailtos[..j]), email);
      if email.Some? {
        emails := emails + [email.value];
      }
    }
    assert mailtos[..|mailtos|] == mailtos;
  }

  /** Text matches, cleaned and pushed unless already listed. */
  method PushTextEmails(acc: seq<string>, matches: seq<string>) returns (emails: seq<string>)
    ensures emails == AddAll(acc, Present(Map(KeptEmail, matches)))
  {
    emails := acc;
    for j := 0 to |matches|
      invariant emails == AddAll(acc, Present(Map(KeptEmail, matches[..j])))
    {
      var cleaned := KeptEmail(matches[j]);
      PrefixSnoc(matches, j);
      MapSnoc(KeptEmail, matches[..j], matches[j]);
      AddPresentSnoc(acc, Map(KeptEmail, matches[..j]), cleaned);
      if cleaned.Some? && cleaned.value !in emails {
        emails := emails + [cleaned.value];
      }
    }
    assert matches[..|matches|] == matches;
  }

  /** `personPhones` as the route builds it: cleaned link numbers pushed as
      they come, then cleaned text matches not yet listed whose digit count
      is between 10 and 15 (which cleaning already guarantees). */
  method CollectPersonPhones(e: Element) returns (personPhones: seq<string>)
    ensures personPhones == AddAll(LinkPhones(e), TextPhones(e))
  {
    personPhones := PushLinkPhones(e.tels);
    personPhones := PushTextPhones(personPhones, e.phoneMatches);
  }

  /** `tel:` links, cleaned and pushed as they come. */
  method PushLinkPhones(tels: seq<string>) returns (phones: seq<string>)
    ensures phones == Present(Map(CleanPhone, tels))
  {
    phones := [];
    for j := 0 to |tels|
      invariant phones == Present(Map(CleanPhone, tels[..j]))
    {
      var phone := CleanPhone(tels[j]);
      PrefixSnoc(tels, j);
      MapSnoc(CleanPhone, tels[..j], tels[j]);
      PresentSnoc(Map(CleanPhone, tels[..j]), phone);
      if phone.Some? {
        phones := phones + [phone.value];
      }
    }
    assert tels[..|tels|] == tels;
  }

  /** Text matches, cleaned, digit-count checked and pushed unless already listed. */
  method PushTextPhones(acc: seq<string>, matches: seq<string>) returns (phones: seq<string>)
    ensures phones == AddAll(acc, Present(Map(CleanPhone, matches)))
  {
    phones := acc;
    for j := 0 to |matches|
      invariant phones == AddAll(acc, Present(Map(CleanPhone, matches[..j])))
    {
      var cleaned := CleanPhone(matches[j]);
      PrefixSnoc(matches, j);
      MapSnoc(CleanPhone, matches[..j], matches[j]);
      AddPresentSnoc(acc, Map(CleanPhone, matches[..j]), cleaned);
      if cleaned.Some? && cleaned.value !in phones {
        var digitsOnly := Digits(cleaned.value);
        if 10 <= |digitsOnly| <= 15 {
          phones := phones + [cleaned.value];
        }
      }
    }
    assert matches[..|matches|] == matches;
  }

  /** The heading, else the emphasised text, else the paragraph up to its first
      comma or line break, trimmed; `Name not found` when all are blank. */
  method ChooseName(e: Element) returns (name: string)
    ensures name == PersonName(e)
  {
    name := Trim(e.heading);
    if name == [] {
      name := Trim(e.emphasis);
    }
    if name == [] {
      name := Trim(BeforeFirst(BeforeFirst(e.paragraph, ','), '\n'));
    }
    if name == [] {
      name := NameNotFound;
    }
  }

  /** Person-card assembly for one element of the walk: the size and
      co-location tests, the name chain, the two lists put through a `Set`,
      and a card only when both lists are non-empty. */
  method AssemblePerson(e: Element) returns (p: Option<Person>)
    ensures p == Candidate(e)
  {
    if |e.text| > 500 || !Qualifies(e) {
      return None;
    }
    var name := ChooseName(e);
    var personEmails := CollectPersonEmails(e);
    var personPhones := CollectPersonPhones(e);
    DedupEmpty(personEmails);
    DedupEmpty(personPhones);
    if |personEmails| > 0 && |personPhones| > 0 {
      p := Some(Person(name, Dedup(personEmails), Dedup(personPhones)));
    } else {
      p := None;
    }
  }

  /** The person cards of the walk, in element order. */
  function PeopleOf(els: seq<Element>): (r: seq<Person>)
    ensures forall p :: p in r <==> Some(p) in Map(Candidate, els)
  {
    Present(Map(Candidate, els))
  }

  /** The elements among the first `n` that yield a card. */
  function CardIndices(els: seq<Element>, n: nat): (r: set<nat>)
    requires n <= |els|
    ensures forall i: nat :: i in r <==> i < n && Candidate(els[i]).Some?
  {
    set i: nat | i < n && Candidate(els[i]).Some?
  }

  lemma CardIndicesSnoc(els: seq<Element>, i: nat)
    requires i < |els|
    ensures CardIndices(els, i + 1) == CardIndices(els, i) + (if Candidate(els[i]).Some? then {i} else {})
  {
  }

  /** The elements recorded in `processedElements`: those that yielded a card. */
  function ProcessedOf(els: seq<Element>): (r: set<nat>)
    ensures forall i: nat :: i in r <==> i < |els| && Candidate(els[i]).Some?
  {
    CardIndices(els, |els|)
  }

  /** Step 2: the walk over `body *`, one card per qualifying element (the
      route never merges cards of different elements). */
  method FindPeople(els: seq<Element>) returns (people: seq<Person>, processed: set<nat>)
    ensures people == PeopleOf(els)
    ensures processed == ProcessedOf(els)
  {
    people, processed := [], {};
    for i := 0 to |els|
      invariant people == Present(Map(Candidate, els[..i]))
      invariant processed == CardIndices(els, i)
    {
      var p := AssemblePerson(els[i]);
      CardIndicesSnoc(els, i);
      PrefixSnoc(els, i);
      MapSnoc(Candidate, els[..i], els[i]);
      PresentSnoc(Map(Candidate, els[..i]), p);
      if p.Some? {
        people := people + [p.value];
        processed := processed + {i};
      }
    }
    assert els[..|els|] == els;
  }

  // --------------------------------------------- steps 3 to 5: general contacts

  /** The `mailto:` targets step 3 reads from an element. */
  function Mailtos(e: Element): seq<string> {
    e.mailtos
  }

  /** The `tel:` targets step 3 reads from an element. */
  function Tels(e: Element): seq<string> {
    e.tels
  }

  /** The social-network link targets step 3 reads from an element. */
  function Socials(e: Element): seq<string> {
    e.socials
  }

  /** What `pick` gives for each element not in `processed`, in walk order. */
  function Unprocessed(els: seq<Element>, processed: set<nat>, pick: Element -> seq<string>): (r: seq<string>)
    ensures forall x :: x in r <==> exists i :: 0 <= i < |els| && i !in processed && x in pick(els[i])
    decreases |els|
  {
    if els == [] then []
    else
      var n := |els| - 1;
      var init := Unprocessed(els[..n], processed, pick);
      assert forall i :: 0 <= i < n ==> els[..n][i] == els[i];
      init + (if n in processed then [] else pick(els[n]))
  }

  lemma UnprocessedSnoc(els: seq<Element>, processed: set<nat>, pick: Element -> seq<string>, i: nat)
    requires i < |els|
    ensures Unprocessed(els[..i + 1], processed, pick)
         == Unprocessed(els[..i], processed, pick) + (if i in processed then [] else pick(els[i]))
  {
    assert els[..i + 1][..i] == els[..i];
  }

  /** The matches found in the page text left once the card elements' texts
      are cut out. */
  datatype TextMatches = TextMatches(emails: seq<string>, phones: seq<string>, socials: seq<string>)

  /** The parsed page: its forms, the elements of `body *` in document order,
      and the matches in the remaining text for each set of card elements. */
  datatype Page = Page(forms: seq<Form>, elements: seq<Element>, remainder: set<nat> -> TextMatches)

  /** A phone match of the remaining text: cleaned, and kept unless it has a
      `.` without a `(` or a `+`. */
  function RemainderPhone(phone: string): (r: Option<string>)
    ensures r.Some? ==> r == CleanPhone(phone)
    ensures r.Some? <==> CleanPhone(phone).Some? && (!Contains(phone, ".") || Contains(phone, "(") || Contains(phone, "+"))
  {
    match CleanPhone(phone)
    case Some(c) =>
      if !Contains(phone, ".") || Contains(phone, "(") || Contains(phone, "+") then Some(c) else None
    case None => None
  }

  /** The `generalEmails` set after steps 3 and 4. */
  function GeneralEmails(els: seq<Element>, processed: set<nat>, rest: TextMatches): seq<string> {
    AddAll(Dedup(Present(Map(KeptEmail, Unprocessed(els, processed, Mailtos)))), Present(Map(KeptEmail, rest.emails)))
  }

  /** The `generalPhones` set after steps 3 and 4. */
  function GeneralPhones(els: seq<Element>, processed: set<nat>, rest: TextMatches): seq<string> {
    AddAll(Dedup(Present(Map(CleanPhone, Unprocessed(els, processed, Tels)))), Present(Map(RemainderPhone, rest.phones)))
  }

  /** The `socialLinks` set after steps 3 and 4. */
  function SocialLinks(els: seq<Element>, processed: set<nat>, rest: TextMatches, currentUrl: string, resolve: Resolver): seq<string> {
    AddAll(Dedup(Present(Absolutes(Unprocessed(els, processed, Socials), currentUrl, resolve))),
           Present(Absolutes(rest.socials, currentUrl, resolve)))
  }

  /** Every address of every card. */
  function EmailsOf(people: seq<Person>): (r: set<string>)
    ensures forall x :: x in r <==> exists i :: 0 <= i < |people| && x in people[i].emails
    decreases |people|
  {
    if people == [] then {}
    else
      var n := |people| - 1;
      assert forall i :: 0 <= i < n ==> people[..n][i] == people[i];
      EmailsOf(people[..n]) + set x | x in people[n].emails
  }

  /** Every number of every card. */
  function PhonesOf(people: seq<Person>): (r: set<string>)
    ensures forall x :: x in r <==> exists i :: 0 <= i < |people| && x in people[i].phones
    decreases |people|
  {
    if people == [] then {}
    else
      var n := |people| - 1;
      assert forall i :: 0 <= i < n ==> people[..n][i] == people[i];
      PhonesOf(people[..n]) + set x | x in people[n].phones
  }

  /** The response lists the route computes from a page. */
  function ContactsOf(page: Page, currentUrl: string, resolve: Resolver): (c: Contacts)
    ensures c.people == PeopleOf(page.elements)
    ensures c.contactForms == FormsOf(page.forms, currentUrl, resolve)
    ensures NoDup(c.generalEmails) && NoDup(c.generalPhones) && NoDup(c.socialMedia) && NoDup(c.contactForms)
    ensures forall x, i :: x in c.generalEmails && 0 <= i < |c.people| ==> x !in c.people[i].emails
    ensures forall x, i :: x in c.generalPhones && 0 <= i < |c.people| ==> x !in c.people[i].phones
  {
    var els := page.elements;
    var people := PeopleOf(els);
    var processed := ProcessedOf(els);
    var rest := page.remainder(processed);
    Contacts(
      Unclaimed(GeneralEmails(els, processed, rest), EmailsOf(people)),
      Unclaimed(GeneralPhones(els, processed, rest), PhonesOf(people)),
      SocialLinks(els, processed, rest, currentUrl, resolve),
      FormsOf(page.forms, currentUrl, resolve),
      people)
  }

  /** A general address is one found outside the card elements (in a link of
      an element without a card, or in the remaining text) that no card
      lists; general numbers likewise. A social link is any link of an
      element without a card or of the remaining text, resolved. */
  lemma GeneralContactsFrom(page: Page, currentUrl: string, resolve: Resolver)
    ensures var c := ContactsOf(page, currentUrl, resolve);
      var processed := ProcessedOf(page.elements);
      var rest := page.remainder(processed);
      && (forall x :: x in c.generalEmails <==>
            && (Some(x) in Map(KeptEmail, Unprocessed(page.elements, processed, Mailtos)) || Some(x) in Map(KeptEmail, rest.emails))
            && x !in EmailsOf(c.people))
      && (forall x :: x in c.generalPhones <==>
            && (Some(x) in Map(CleanPhone, Unprocessed(page.elements, processed, Tels)) || Some(x) in Map(RemainderPhone, rest.phones))
            && x !in PhonesOf(c.people))
      && (forall x :: x in c.socialMedia <==>
            Some(x) in Absolutes(Unprocessed(page.elements, processed, Socials), currentUrl, resolve)
            || Some(x) in Absolutes(rest.socials, currentUrl, resolve))
  {
  }

  /** The general lists keep first-insertion order: what the elements without
      a card give comes first, in walk order, before anything from the
      remaining text. */
  lemma GeneralListsKeepOrder(page: Page, currentUrl: string, resolve: Resolver)
    ensures var c := ContactsOf(page, currentUrl, resolve);
      var processed := ProcessedOf(page.elements);
      && Unclaimed(Dedup(Present(Map(KeptEmail, Unprocessed(page.elements, processed, Mailtos)))), EmailsOf(c.people)) <= c.generalEmails
      && Unclaimed(Dedup(Present(Map(CleanPhone, Unprocessed(page.elements, processed, Tels)))), PhonesOf(c.people)) <= c.generalPhones
      && Dedup(Present(Absolutes(Unprocessed(page.elements, processed, Socials), currentUrl, resolve))) <= c.socialMedia
  {
    var els := page.elements;
    var people := PeopleOf(els);
    var processed := ProcessedOf(els);
    var rest := page.remainder(processed);
    UnclaimedPrefix(Dedup(Present(Map(KeptEmail, Unprocessed(els, processed, Mailtos)))), GeneralEmails(els, processed, rest), EmailsOf(people));
    UnclaimedPrefix(Dedup(Present(Map(CleanPhone, Unprocessed(els, processed, Tels)))), GeneralPhones(els, processed, rest), PhonesOf(people));
  }

  /** `set.add` for each value present in `opts`, in order. */
  method AddPresent(s: OrderedSet<string>, opts: seq<Option<string>>)
    requires s.Valid()
    modifies s
    ensures s.Valid()
    ensures s.items == AddAll(old(s.items), Present(opts))
  {
    for j := 0 to |opts|
      invariant s.Valid()
      invariant s.items == AddAll(old(s.items), Present(opts[..j]))
    {
      PrefixSnoc(opts, j);
      AddPresentSnoc(old(s.items), opts[..j], opts[j]);
      if opts[j].Some? {
        s.Add(opts[j].value);
      }
    }
    assert opts[..|opts|] == opts;
  }

  lemma StepAppend(acc: seq<string>, xs: seq<Option<string>>, ys: seq<Option<string>>)
    ensures AddAll(acc, Present(xs + ys)) == AddAll(AddAll(acc, Present(xs)), Present(ys))
  {
    PresentAppend(xs, ys);
    AddAllAppend(acc, Present(xs), Present(ys));
  }

  /** The sets after adding the cleaned values of the walk's first `i + 1`
      elements: those of the first `i`, then those of element `i` unless it
      has a card. */
  lemma WalkStep(els: seq<Element>, processed: set<nat>, pick: Element -> seq<string>, f: string -> Option<string>, i: nat)
    requires i < |els|
    ensures AddAll([], Present(Map(f, Unprocessed(els[..i + 1], processed, pick))))
         == if i in processed then AddAll([], Present(Map(f, Unprocessed(els[..i], processed, pick))))
            else AddAll(AddAll([], Present(Map(f, Unprocessed(els[..i], processed, pick)))), Present(Map(f, pick(els[i]))))
  {
    var before := Unprocessed(els[..i], processed, pick);
    var after := Unprocessed(els[..i + 1], processed, pick);
    UnprocessedSnoc(els, processed, pick, i);
    if i !in processed {
      var added := pick(els[i]);
      assert after == before + added;
      MapAppend(f, before, added);
      StepAppend([], Map(f, before), Map(f, added));
    } else {
      assert after == before + [];
      assert after == before;
    }
  }

  lemma WalkStepSocial(els: seq<Element>, processed: set<nat>, i: nat, currentUrl: string, resolve: Resolver)
    requires i < |els|
    ensures AddAll([], Present(Absolutes(Unprocessed(els[..i + 1], processed, Socials), currentUrl, resolve)))
         == if i in processed then AddAll([], Present(Absolutes(Unprocessed(els[..i], processed, Socials), currentUrl, resolve)))
            else AddAll(AddAll([], Present(Absolutes(Unprocessed(els[..i], processed, Socials), currentUrl, resolve))),
                        Present(Absolutes(els[i].socials, currentUrl, resolve)))
  {
    var before := Unprocessed(els[..i], processed, Socials);
    var after := Unprocessed(els[..i + 1], processed, Socials);
    UnprocessedSnoc(els, processed, Socials, i);
    if i !in processed {
      var added := els[i].socials;
      assert after == before + added;
      AbsolutesAppend(before, added, currentUrl, resolve);
      StepAppend([], Absolutes(before, currentUrl, resolve), Absolutes(added, currentUrl, resolve));
    } else {
      assert after == before + [];
      assert after == before;
    }
  }

  /** Step 3 for one element: its `mailto:` addresses, `tel:` numbers and
      social links, cleaned or resolved, go into the three sets. */
  method VisitElement(e: Element, currentUrl: string, resolve: Resolver,
                      generalEmails: OrderedSet<string>, generalPhones: OrderedSet<string>, socialLinks: OrderedSet<string>)
    requires generalEmails != generalPhones && generalEmails != socialLinks && generalPhones != socialLinks
    requires generalEmails.Valid() && generalPhones.Valid() && socialLinks.Valid()
    modifies generalEmails, generalPhones, socialLinks
    ensures generalEmails.Valid() && generalPhones.Valid() && socialLinks.Valid()
    ensures generalEmails.items == AddAll(old(generalEmails.items), Present(Map(KeptEmail, e.mailtos)))
    ensures generalPhones.items == AddAll(old(generalPhones.items), Present(Map(CleanPhone, e.tels)))
    ensures socialLinks.items == AddAll(old(socialLinks.items), Present(Absolutes(e.socials, currentUrl, resolve)))
  {
    AddPresent(generalEmails, Map(KeptEmail, e.mailtos));
    AddPresent(generalPhones, Map(CleanPhone, e.tels));
    AddPresent(socialLinks, Absolutes(e.socials, currentUrl, resolve));
  }

  /** Step 3: every element without a card adds its links to the three
      empty sets. */
  method WalkUnprocessed(els: seq<Element>, processed: set<nat>, currentUrl: string, resolve: Resolver,
                         generalEmails: OrderedSet<string>, generalPhones: OrderedSet<string>, socialLinks: OrderedSet<string>)
    requires generalEmails != generalPhones && generalEmails != socialLinks && generalPhones != socialLinks
    requires generalEmails.Valid() && generalPhones.Valid() && socialLinks.Valid()
    requires generalEmails.items == [] && generalPhones.items == [] && socialLinks.items == []
    modifies generalEmails, generalPhones, socialLinks
    ensures generalEmails.Valid() && generalPhones.Valid() && socialLinks.Valid()
    ensures generalEmails.items == Dedup(Present(Map(KeptEmail, Unprocessed(els, processed, Mailtos))))
    ensures generalPhones.items == Dedup(Present(Map(CleanPhone, Unprocessed(els, processed, Tels))))
    ensures socialLinks.items == Dedup(Present(Absolutes(Unprocessed(els, processed, Socials), currentUrl, resolve)))
  {
    for i := 0 to |els|
      invariant generalEmails.Valid() && generalPhones.Valid() && socialLinks.Valid()
      invariant generalEmails.items == AddAll([], Present(Map(KeptEmail, Unprocessed(els[..i], processed, Mailtos))))
      invariant generalPhones.items == AddAll([], Present(Map(CleanPhone, Unprocessed(els[..i], processed, Tels))))
      invariant socialLinks.items == AddAll([], Present(Absolutes(Unprocessed(els[..i], processed, Socials), currentUrl, resolve)))
    {
      WalkStep(els, processed, Mailtos, KeptEmail, i);
      WalkStep(els, processed, Tels, CleanPhone, i);
      WalkStepSocial(els, processed, i, currentUrl, resolve);
      if i !in processed {
        VisitElement(els[i], currentUrl, resolve, generalEmails, generalPhones, socialLinks);
      }
    }
    assert els[..|els|] == els;
  }

  /** Steps 1 to 5 on a parsed page. */
  method ExtractContacts(page: Page, currentUrl: string, resolve: Resolver) returns (c: Contacts)
    ensures c == ContactsOf(page, currentUrl, resolve)
  {
    var els := page.elements;
    var contactForms := CollectForms(page.forms, currentUrl, resolve);
    var people, processed := FindPeople(els);

    var generalEmails := new OrderedSet<string>();
    var generalPhones := new OrderedSet<string>();
    var socialLinks := new OrderedSet<string>();
    WalkUnprocessed(els, processed, currentUrl, resolve, generalEmails, generalPhones, socialLinks);

    var rest := page.remainder(processed);
    AddPresent(generalEmails, Map(KeptEmail, rest.emails));
    AddPresent(generalPhones, Map(RemainderPhone, rest.phones));
    AddPresent(socialLinks, Absolutes(rest.socials, currentUrl, resolve));

    var peopleEmails := EmailsOf(people);
    var peoplePhones := PhonesOf(people);
    c := Contacts(
      Unclaimed(generalEmails.items, peopleEmails),
      Unclaimed(generalPhones.items, peoplePhones),
      socialLinks.items,
      contactForms,
      people);
  }

  /** The whole route: the request checks, then the upstream reply, then the
      extraction; an exception answers 500. */
  method HandleScrape(req: Request, apiKey: string, upstream: Upstream<Page>, resolve: Resolver) returns (r: Reply)
    ensures Gate(req, apiKey, MissingKey).Some? ==>
      r == Reply(Gate(req, apiKey, MissingKey).value.status, Some(Gate(req, apiKey, MissingKey).value.message), None, None)
    ensures Gate(req, apiKey, MissingKey).None? && upstream.Failed? ==> r == UpstreamFailure(upstream.status, upstream.error)
    ensures Gate(req, apiKey, MissingKey).None? && upstream.Threw? ==> r == Reply(500, Some(ServerError), Some(upstream.message), Some(NoContacts))
    ensures Gate(req, apiKey, MissingKey).None? && upstream.Delivered? && upstream.content.None? ==> r == Reply(200, None, None, Some(NoContacts))
    ensures Gate(req, apiKey, MissingKey).None? && upstream.Delivered? && upstream.content.Some? ==>
      r == Reply(200, None, None, Some(ContactsOf(upstream.content.value, req.url, resolve)))
  {
    var gate := Gate(req, apiKey, MissingKey);
    if gate.Some? {
      return Reply(gate.value.status, Some(gate.value.message), None, None);
    }
    match upstream
    case Threw(message) =>
      r := Reply(500, Some(ServerError), Some(message), Some(NoContacts));
    case Failed(status, error) =>
      r := UpstreamFailure(status, error);
    case Delivered(content) =>
      if content.None? {
        r := Reply(200, None, None, Some(NoContacts));
      } else {
        var c := ExtractContacts(content.value, req.url, resolve);
        r := Reply(200, None, None, Some(c));
      }
  }
}
