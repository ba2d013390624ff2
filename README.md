# Website contact scraper: the logic core in Dafny

This project models the logic at the centre of a small Next.js contact
scraper and proves what that logic promises. It covers four pieces.

- **Domain normalisation** (`utils/domainUtils.js`). `normalizeDomain`
  trims, strips one scheme and one `www.`, cuts at `/`, `?` and `#`,
  lower-cases and drops one trailing dot.
- **The scrape route** (`pages/api/scrape.js`).
  - The request checks and the reaction to the upstream webscraper's reply.
  - `cleanEmail` and `cleanPhone`.
  - Contact-form detection.
  - The walk that builds person cards, one per qualifying element.
  - The general e-mails, phones and social links found outside the cards, minus every card's addresses and numbers.
- **The link-discovery route** (`pages/api/discover-links.js`).
  - The request checks and the upstream reply.
  - The navigation-region pass and the whole-page keyword pass (capped at 20).
  - The 18 conventional paths added when fewer than 3 links were found.
  - The cut to 15 links.
- **The CSV export** (`utils/csvExportUtils.js`). The header list, the row
  objects filled field by field, and the table of cells in header order that
  is handed to the CSV writer.

## Layout

- `collections.dfy` (`Collections`): `Option`, and the insertion-ordered,
  duplicate-free sequences that stand for a JavaScript `Set` spread into an
  array. These are `AddUnique`, `AddAll`, `Dedup`, `Present` and `Unclaimed`.
  The `OrderedSet` class is the mutable `Set` the routes add to.
- `text.dfy` (`Text`): the string built-ins the core calls, with ASCII
  semantics. These are `toLowerCase`/`toUpperCase`, `trim`, `includes`,
  `split(c)[0]`, the digit filter, `join` and decimal printing.
- `web.dfy` (`Web`): the request and the checks both routes make on it,
  URL resolution as a parameter, the upstream reply, and `getAbsoluteUrl`.
- `domain_utils.dfy`, `scrape.dfy`, `discover_links.dfy` and
  `csv_export.dfy`: one module per core file.

Pure code is modelled as functions with lemmas. Code that grows a `Set`, an
array or a row object step by step is modelled as methods with loops. Each
such method is proved equal to a specification function, and the lemmas are
stated about that function.

## Model

| member | source | states |
|---|---|---|
| DomainUtils.StripScheme | utils/domainUtils.js:6 | one leading `http://` or `https://`, any case, is removed (at least 7 characters go, the rest is a suffix); otherwise the string is unchanged |
| DomainUtils.StripWww | utils/domainUtils.js:8-10 | one leading `www.` in any case is removed, nothing else |
| DomainUtils.Cut | utils/domainUtils.js:12-14 | the result is a prefix of the input holding no `/`, `?` or `#` |
| DomainUtils.DropTrailingDot | utils/domainUtils.js:18-20 | exactly one trailing `.` is dropped when present |
| DomainUtils.NormalizeDomain | utils/domainUtils.js:1-21 | the empty (falsy) input gives `''`; the result has no `/`, `?`, `#`, is lower-case and is no longer than the input |
| DomainUtils.NormalizeDomainTrimsFirst | utils/domainUtils.js:4 | surrounding white space never changes the result |
| DomainUtils.NormalizeDomainStripsScheme | utils/domainUtils.js:6 | a leading scheme in any case is ignored: `scheme + s` normalises like `s` |
| DomainUtils.NormalizeDomainStripsOneWww | utils/domainUtils.js:8-10 | exactly one leading `www.` goes; a second one stays |
| DomainUtils.NormalizeDomainCutsTail | utils/domainUtils.js:12-14 | a path, query or fragment after the host does not change the result |
| DomainUtils.NormalizeDomainExtractsHost | utils/domainUtils.js:4-20 | white space + scheme + `www.` + host + tail + white space gives the lower-cased host without one trailing dot |
| DomainUtils.NormalizeDomainDropsOneDot | utils/domainUtils.js:18-20 | `example.com.` gives `example.com`; only one dot goes |
| DomainUtils.NormalizeDomainFixesNormal | utils/domainUtils.js:2-21 | an already normal domain comes back unchanged |
| DomainUtils.NormalizeDomainStripsWwwOfNormal | utils/domainUtils.js:8-10 | `www.` + a normal domain gives that domain |
| DomainUtils.NormalizeDomainNotIdempotent | utils/domainUtils.js:8-10 | `www.www.d` gives `www.d`, which normalises again to `d`: the function is not idempotent |
| Web.AbsoluteHref | pages/api/scrape.js:108-114 | a value exactly when the href is non-empty and resolves to a non-empty `href`, and then that resolved `href` |
| Web.Gate | pages/api/scrape.js:10-21 | non-POST gives 405 `Method not allowed`, then a missing url gives 400 `Missing URL parameter`, then a missing key gives 500 with the route's message; the request passes exactly when none applies (the same checks open pages/api/discover-links.js:4-14) |
| Scrape.CleanEmail | pages/api/scrape.js:89-93 | `null` exactly when the lower-cased, trimmed text contains a blacklisted substring; otherwise that text, trimmed and lower-case |
| Scrape.CleanEmailIdempotent | pages/api/scrape.js:89-93 | cleaning a cleaned address gives the same address |
| Scrape.CleanEmailRejectsBlockedSuffix | pages/api/scrape.js:91-92 | any address ending in a blacklisted domain is rejected, e.g. one at `mycompany.com` |
| Scrape.RejectedDigits | pages/api/scrape.js:100-102 | the digit strings refused: fewer than 10 or more than 15 digits, all `0`, all `1` or all `2`, or holding `000` or `111` |
| Scrape.KeepPhoneChars | pages/api/scrape.js:97 | only characters of the kept class remain (digits, `+`, `(`, `)` to `.`, white space); no digit is lost; a string of kept characters is unchanged |
| Scrape.KeepPhoneCharsSingle | pages/api/scrape.js:97 | one character is kept exactly when it is in the kept class |
| Scrape.KeepPhoneCharsAppend | pages/api/scrape.js:97 | the filter works character by character and keeps the order: filtering `a + b` gives the filtered `a` followed by the filtered `b` |
| Scrape.CleanPhone | pages/api/scrape.js:96-105 | `null` exactly when the digits are refused (outside 10 to 15, all 0, all 1, all 2, or containing `000` or `111`); otherwise the input with every foreign character removed, trimmed; it has the input's digits, 10 to 15 of them |
| Scrape.CleanPhoneIdempotent | pages/api/scrape.js:96-105 | cleaning a cleaned number gives the same number |
| Scrape.CleanPhoneKeepsFormatting | pages/api/scrape.js:96-105 | a trimmed number written in kept characters comes back as written, not reduced to its digits |
| Scrape.CleanPhoneOnlyTrims | pages/api/scrape.js:96-105 | a number written only in kept characters loses nothing but its surrounding white space, e.g. `" (212) 555-0101"` gives `"(212) 555-0101"` |
| Scrape.CleanPhoneAcceptsOtherRepeats | pages/api/scrape.js:101 | ten to fifteen copies of one digit from 3 to 9 are accepted |
| Scrape.TooLarge | pages/api/scrape.js:43 | a non-empty upstream error text holding `2MB`, `size` or `large`, compared case-sensitively |
| Scrape.UpstreamFailure | pages/api/scrape.js:39-62 | an error mentioning `2MB`, `size` or `large` gives 200 with the too-large message and error; otherwise the upstream status with its error text, or `API Error`; all lists empty |
| Scrape.FormVerb | pages/api/scrape.js:121 | `GET` when the method is absent; otherwise the method upper-cased letter by letter, same length, no lower-case letter left |
| Scrape.HasContactFields | pages/api/scrape.js:123-126 | the lower-cased form markup holds `name` and one of `email`, `message`, `subject`, `phone` |
| Scrape.FormEntry | pages/api/scrape.js:118-137 | a descriptor only for a form with contact fields; always one without an action; with an action, exactly when the action resolves |
| Scrape.FormEntryReadsBack | pages/api/scrape.js:128-136 | every descriptor is the method, `": "`, and the resolved action or `currentUrl (same page)`; when the method holds no `:`, the text before the first `:` is the method |
| Scrape.FormsOf | pages/api/scrape.js:116-138 | `contactForms` has no duplicates and holds exactly the descriptors of the forms |
| Scrape.CollectForms | pages/api/scrape.js:116-138 | the loop adding each descriptor to the `Set` yields `FormsOf` |
| Scrape.KeptEmail | pages/api/scrape.js:161-162 | an address is kept exactly when `cleanEmail` gives a non-empty value |
| Scrape.Qualifies | pages/api/scrape.js:148-153 | an e-mail sign (a `mailto:` link or a text match) and a phone sign (a `tel:` link or a text match) |
| Scrape.PersonName | pages/api/scrape.js:154-156 | the name is never empty; the trimmed heading wins, then the trimmed emphasis, then the first paragraph cut at the first `,` and then at the first line break, trimmed, and else `Name not found` |
| Scrape.ParagraphNameHasNoBreak | pages/api/scrape.js:156 | a name taken from the paragraph (or the `Name not found` default) holds no `,` and no line break |
| Scrape.ChooseName | pages/api/scrape.js:154-156 | the three assignments compute `PersonName` |
| Scrape.Candidate | pages/api/scrape.js:146-203 | a card only for an element of at most 500 characters with an e-mail sign and a phone sign; its name is `PersonName` of the element |
| Scrape.CandidateWhen | pages/api/scrape.js:146-203 | such an element yields a card exactly when at least one address and one number survive cleaning |
| Scrape.CandidateLists | pages/api/scrape.js:158-198 | a card's lists have no duplicates, hold exactly the surviving link and text values, and list link values first, in link order |
| Scrape.CollectPersonEmails | pages/api/scrape.js:158-171 | link addresses pushed as they come, then text matches not yet listed |
| Scrape.PushLinkEmails | pages/api/scrape.js:159-164 | the loop over `mailto:` links pushes each kept address |
| Scrape.PushTextEmails | pages/api/scrape.js:165-171 | the loop over text matches adds each kept address not yet listed |
| Scrape.CollectPersonPhones | pages/api/scrape.js:173-192 | link numbers pushed as they come, then text matches not yet listed |
| Scrape.PushLinkPhones | pages/api/scrape.js:174-179 | the loop over `tel:` links pushes each cleaned number |
| Scrape.PushTextPhones | pages/api/scrape.js:180-192 | the loop over phone matches adds each cleaned number not yet listed (its digit-count check always passes) |
| Scrape.AssemblePerson | pages/api/scrape.js:146-203 | the per-element code yields exactly `Candidate` |
| Scrape.PeopleOf | pages/api/scrape.js:140-205 | the cards are exactly those of the qualifying elements, in element order |
| Scrape.ProcessedOf | pages/api/scrape.js:201 | `processedElements` is exactly the set of elements that yielded a card |
| Scrape.FindPeople | pages/api/scrape.js:140-205 | the walk pushes `PeopleOf` and records `ProcessedOf` |
| Scrape.Unprocessed | pages/api/scrape.js:208-209 | step 3 reads exactly the elements without a card |
| Scrape.RemainderPhone | pages/api/scrape.js:247-256 | a remaining-text number is kept when it cleans and has no `.`, or has a `(` or a `+` |
| Scrape.GeneralEmails | pages/api/scrape.js:207-263 | the `generalEmails` set after steps 3 and 4: the kept `mailto:` addresses of the card-less elements in walk order, then the kept remaining-text addresses, each added once |
| Scrape.GeneralPhones | pages/api/scrape.js:207-263 | the `generalPhones` set after steps 3 and 4: the cleaned `tel:` numbers of the card-less elements in walk order, then the remaining-text numbers `RemainderPhone` keeps, each added once |
| Scrape.SocialLinks | pages/api/scrape.js:207-263 | the `socialLinks` set after steps 3 and 4: the resolved social hrefs of the card-less elements in walk order, then those of the remaining text, each added once |
| Scrape.EmailsOf | pages/api/scrape.js:266 | exactly the addresses listed on some card |
| Scrape.PhonesOf | pages/api/scrape.js:267 | exactly the numbers listed on some card |
| Scrape.ContactsOf | pages/api/scrape.js:265-278 | all lists are duplicate-free; no general address or number appears on any card; people and forms are those of steps 1 and 2 |
| Scrape.GeneralContactsFrom | pages/api/scrape.js:207-275 | a general address is one found in a link of a card-less element or in the remaining text that no card lists; numbers likewise; a social link is exactly a resolved social href of a card-less element or of the remaining text |
| Scrape.GeneralListsKeepOrder | pages/api/scrape.js:207-275 | the lists keep first-insertion order: what the card-less elements give comes first, in walk order, filtered of card values, before anything from the remaining text |
| Scrape.VisitElement | pages/api/scrape.js:211-229 | one element's cleaned links go into the three sets |
| Scrape.WalkUnprocessed | pages/api/scrape.js:207-230 | step 3 leaves the three sets holding the values from the card-less elements, deduplicated in order |
| Scrape.ExtractContacts | pages/api/scrape.js:116-278 | steps 1 to 5 on the mutable sets compute `ContactsOf` |
| Scrape.HandleScrape | pages/api/scrape.js:10-295 | the gate's reply if any; else the upstream failure reply, 500 on an exception, empty lists with 200 when there is no HTML, or the extracted contacts |
| DiscoverLinks.LinkText | pages/api/discover-links.js:62 | the compared text is the anchor text lower-cased and then trimmed, so it is lower-case and trimmed |
| DiscoverLinks.IsNavLink | pages/api/discover-links.js:69-72 | phase 1's test: a navigation word in the lower-cased href or in the link text |
| DiscoverLinks.NavEntry | pages/api/discover-links.js:60-82 | a navigation anchor counts exactly when its href is non-empty, resolves to the base host, and its lower-cased href or text holds a navigation word |
| DiscoverLinks.AfterNav | pages/api/discover-links.js:59-82 | the set after phase 1 is duplicate-free and holds exactly the accepted navigation links |
| DiscoverLinks.AddNavLinks | pages/api/discover-links.js:59-82 | the phase-1 loop yields the deduplicated accepted links in order |
| DiscoverLinks.PageEntry | pages/api/discover-links.js:85-125 | a page anchor counts exactly when it resolves to the base host and passes the important-page, team or contact/about test |
| DiscoverLinks.IsImportantPage | pages/api/discover-links.js:96-100 | a navigation word in the lower-cased resolved path, the link text or the lower-cased href |
| DiscoverLinks.IsTeamPage | pages/api/discover-links.js:102-106 | a team word in the lower-cased resolved path, the link text or the lower-cased href |
| DiscoverLinks.IsContactAboutPage | pages/api/discover-links.js:108-111 | a contact/about word in the lower-cased resolved path or the link text, never the href |
| DiscoverLinks.ClassifyPageLink | pages/api/discover-links.js:96-113 | the three keyword tests; contact/about words are not looked for in the href |
| DiscoverLinks.ContactAboutWordsAreNav | pages/api/discover-links.js:51-113 | a string holding a contact/about word holds a navigation word |
| DiscoverLinks.TeamWordsAreNav | pages/api/discover-links.js:51-113 | a string holding a team word holds a navigation word or `members`, and one holding `members` holds a team word |
| DiscoverLinks.PageTestMeans | pages/api/discover-links.js:96-115 | phase 2's combined test is exactly: a navigation word in the path, the text or the href, or `members` in one of them |
| DiscoverLinks.PagePass | pages/api/discover-links.js:84-125 | phase 2 only extends the set; it adds nothing at 20 or more and never goes past 20 otherwise; it keeps the set duplicate-free and adds only accepted links; when it ends below 20, every accepted anchor's link is in the set |
| DiscoverLinks.AddPageLinks | pages/api/discover-links.js:84-125 | the phase-2 loop computes `PagePass` |
| DiscoverLinks.PagePassBound | pages/api/discover-links.js:89 | after phase 2 the size is at most the larger of 20 and the size after phase 1 |
| DiscoverLinks.FallbackUrls | pages/api/discover-links.js:138-141 | the 18 addresses `protocol//hostname` + path, in list order |
| DiscoverLinks.CommonPathsDistinct | pages/api/discover-links.js:131-136 | the 18 conventional paths are pairwise different |
| DiscoverLinks.FallbackUrlsDistinct | pages/api/discover-links.js:138-141 | the 18 fallback addresses on one site are pairwise different |
| DiscoverLinks.AddCommonPaths | pages/api/discover-links.js:138-141 | the phase-3 loop adds the fallback addresses in order |
| DiscoverLinks.Discovered | pages/api/discover-links.js:128-142 | the set after phases 1 and 2, with the 18 fallback addresses added when it holds fewer than 3 links; duplicate-free |
| DiscoverLinks.LinksOf | pages/api/discover-links.js:144 | the first min(15, n) links of the discovered set of n, with no duplicates |
| DiscoverLinks.FallbackGivesFifteen | pages/api/discover-links.js:128-144 | with fewer than 3 links found, every fallback address is in the set and exactly 15 links come back |
| DiscoverLinks.NoFallbackWhenEnough | pages/api/discover-links.js:128-144 | with 3 or more found, every returned link was accepted by phase 1 or phase 2 |
| DiscoverLinks.NavLinksFirst | pages/api/discover-links.js:59-144 | the navigation links come first and in order |
| DiscoverLinks.Discover | pages/api/discover-links.js:46-144 | the three passes on one set and the slice compute `LinksOf` |
| DiscoverLinks.HandleDiscover | pages/api/discover-links.js:4-157 | the gate's reply; else the upstream status with `links: []`, 200 with `links: []` without HTML, 500 on an exception or an invalid base URL, or the discovered links |
| CsvExport.Capitalize | utils/csvExportUtils.js:18 | the first letter upper-cased and the rest unchanged |
| CsvExport.ColumnNameInjective | utils/csvExportUtils.js:14-23 | different columns have different header names, so no cell of a row overwrites another |
| CsvExport.PersonColumns | utils/csvExportUtils.js:21-23 | three person columns per person, numbered 1 to `maxPeople` |
| CsvExport.Columns | utils/csvExportUtils.js:14-23 | 16 + 3·`maxPeople` columns |
| CsvExport.PersonColumnsDistinct | utils/csvExportUtils.js:21-23 | the person columns are pairwise different |
| CsvExport.HeadersDistinct | utils/csvExportUtils.js:14-23 | the header row has no repeated name |
| CsvExport.HeaderLayout | utils/csvExportUtils.js:14-23 | 16 + 3·`maxPeople` headers, `Domain` first, then `Person_i_Name/Emails/Phones` at 16 + 3(i−1) |
| CsvExport.FixedHeaders | utils/csvExportUtils.js:14-20 | the first 16 headers, written out |
| CsvExport.Headers | utils/csvExportUtils.js:13-23 | the header row: the header name of each column, in column order |
| CsvExport.PlatformNames | utils/csvExportUtils.js:18 | the capitalised platform headers are `Linkedin` to `Pinterest`, in platform order |
| CsvExport.PlatformColumnAt | utils/csvExportUtils.js:14-20 | the platform columns sit at positions 7 to 13, in platform order, with capitalised names |
| CsvExport.MaxPeople | utils/csvExportUtils.js:11 | the largest `people` length, attained by some result (0 for no results) |
| CsvExport.PeopleAllExported | utils/csvExportUtils.js:11-23 | every person of every result gets its three columns |
| CsvExport.BuildHeaders | utils/csvExportUtils.js:13-23 | the header list and the push loop give `Headers(maxPeople)` |
| CsvExport.BuildRow | utils/csvExportUtils.js:26-62 | the row object holds, under each header, that column's cell, and no other key |
| CsvExport.At | utils/csvExportUtils.js:30-51 | the optional index with the `''` default: entry `i` of the list, or `''` past its end |
| CsvExport.PlatformCell | utils/csvExportUtils.js:41-46 | the first link filed under the platform in a keyed `socialMedia`, or `''`; always `''` for a flat list |
| CsvExport.PersonCell | utils/csvExportUtils.js:54-58 | person `n`'s name, e-mails joined with `; ` or phones joined with `; `, or `''` past the result's people |
| CsvExport.Cell | utils/csvExportUtils.js:26-59 | the cell a result's row holds under each column |
| CsvExport.FillNumbered | utils/csvExportUtils.js:30-51 | the counted loop sets `<prefix>i` to the (i−1)-th entry or `''` |
| CsvExport.FillPlatforms | utils/csvExportUtils.js:40-46 | each platform column gets the first link filed under it, or `''` |
| CsvExport.FillPeople | utils/csvExportUtils.js:53-59 | the person loop fills the three cells of persons 1 to `maxPeople` |
| CsvExport.FillPerson | utils/csvExportUtils.js:55-58 | the name, the e-mails joined with `; ` and the phones joined with `; `, or `''` past the result's people |
| CsvExport.Cells | utils/csvExportUtils.js:67 | one cell per header, in header order, `''` for a missing key |
| CsvExport.AllCells | utils/csvExportUtils.js:67 | one cell list per row |
| CsvExport.Lookup | utils/csvExportUtils.js:67 | the row's value under the header, or `''` when the row has no such key |
| CsvExport.CellsOfFilled | utils/csvExportUtils.js:67 | reading a filled row back in header order gives each column's cell |
| CsvExport.BuildRows | utils/csvExportUtils.js:26-62 | one row per result, each reading back as that result's cells |
| CsvExport.ExportToCsv | utils/csvExportUtils.js:7-68 | nothing exactly for no results; otherwise the headers for the largest number of people and one row of cells per result |
| CsvExport.NumberedColumnsBounded | utils/csvExportUtils.js:30-59 | only e-mails 1–3, phones 1–3 and forms 1–2 are exported, and persons 1 to `maxPeople` |
| CsvExport.ListedSocialsExportBlank | utils/csvExportUtils.js:41-46 | for a result whose `socialMedia` is a flat list, as the scrape route returns it, all seven platform cells are `''` |

## Left out

- HTML parsing and selector evaluation. A page is an abstract record. For
  the scrape route it holds the forms, the elements of `body *` (text, link
  targets, regex matches, heading, emphasis and paragraph texts) and the
  remaining-text matches. For link discovery it holds the navigation-region
  anchors and the `a[href]` anchors.
- The regular expressions. Their matches are inputs. The `.test` results of
  the global patterns carry `lastIndex` from element to element, so they are
  independent boolean inputs of each element.
- WHATWG URL parsing and resolution. `new URL(href, base)` is a function
  parameter returning an optional URL. `new URL(url)` of the requested
  address is an input that is either parsed or an error message.
- The network call, JSON decoding of the upstream body, `res.status().json`,
  console logging and environment access. The upstream reply and the API key
  are inputs.
- Step 4's remaining text (`$('body').text().replace(...)`). The matches in
  it are a function of the set of card elements; the text surgery itself is
  not modelled.
- `processedElements.has(el)` in step 2 (pages/api/scrape.js:146) is always
  false at that point, because each element is visited once and is recorded
  only after its own visit. The model leaves the test out.
- `Papa.unparse`, the `Blob`, the object URL and the download link
  (utils/csvExportUtils.js:64-78). The model stops at the `{ fields, data }`
  table.
- The try/catch around `normalizeDomain` (utils/domainUtils.js:22-25). It
  only fires for a non-string argument, and the model's inputs are strings.
- Unicode. Case mapping covers only ASCII letters, white space is ASCII
  white space, and strings are sequences of characters.
- The React components, the CSV upload, the page shell and any multi-page
  crawl driver are not part of this model.

## Where the code and its description differ

The model follows the code in each case.

- `cleanPhone` refuses only digit strings made entirely of `0`, entirely of
  `1` or entirely of `2` (pages/api/scrape.js:101). Any other repeated digit
  passes (`Scrape.CleanPhoneAcceptsOtherRepeats`). Its character class also
  keeps `*` and `,`, because `)-.` is a range.
- The scrape route returns `socialMedia` as a flat list of links, and the
  interface treats it as one. The export looks links up per platform, so for
  such results every platform column is empty
  (`CsvExport.ListedSocialsExportBlank`). A keyed `socialMedia` is modelled
  too (`CsvExport.SocialMedia.Keyed`).
- Step 3's social selector lists six networks (no `pinterest`), while the
  remaining-text pattern lists seven. Both are inputs of the model, so this
  difference is carried by the page record rather than checked.
