# PF2e parser: a verified model

The PF2e parser turns Pathfinder 2e source text into rule candidates and hands
each of them to the Rules Service through the kernel. This project models its
two cores in Dafny and proves what they promise. `dafny verify dfyconfig.toml`
checks everything.

**The text pipeline.** `book_adapter` prints pages of a book as labelled
blocks, `parser` reads labelled blocks as candidates, and `dispatch` reads and
prints the two scope texts that travel through the kernel.

| file | models |
|---|---|
| `Sequences.dfy`, `Text.dfy`, `Decimals.dfy` | lists, splitting and joining, trimming, words, case, decimal text |
| `Domain.dfy` | sources, drafts, candidates, rule types, parse keys |
| `Parser.dfy`, `ParserLaws.dfy` | the labelled-block parser and its laws |
| `BlockTexts.dfy` | what the parser reads, in terms of the block's lines alone |
| `BookBlocks.dfy`, `BookActions.dfy`, `BookWords.dfy`, `BookFeats.dfy`, `BookConditions.dfy` | the three page converters, and what a converted page parses to |
| `ActionTexts.dfy`, `FeatTexts.dfy`, `ConditionTexts.dfy` | what each converter makes of a page, in terms of the page's lines alone |
| `Uuids.dfy`, `Base64Url.dfy`, `Scopes.dfy` | the two scope texts |

**The protocol.** A worker claims a route, parses it in a database transaction,
submits one admission per candidate and only then completes its claim.

| file | models |
|---|---|
| `JsonLists.dfy`, `Rows.dfy` | candidates as rows of `parsed_candidates` |
| `Passes.dfy` | one work pass as an automaton over its calls, one SQL statement or kernel call at a time |
| `Workers.dfy` | `work_once`, `dispatch` and `parse_once` as methods, each proved to make exactly the automaton's calls |
| `Handoff.dfy` | any number of passes against one kernel and one database, interleaved call by call |
| `Safety.dfy`, `Guarantees.dfy` | the invariant of every interleaving, and the guarantees that follow |
| `Results.dfy` | what a pass's result says of the answers, the kernel and the database |
| `VersionDigests.dfy`, `DigestRace.dfy` | exactly when a document version gets two digests, and a run in which it does |
| `Progress.dfy`, `Liveness.dfy` | how many passes it takes, and when a lone worker's pass can go on |
| `Delivery.dfy` | exactly which requests a lone worker can bring to completion |
| `Leases.dfy`, `RunLoop.dfy` | instance lease renewal in real time, and the run loop around renewal and pass |

Functions without loops stay functions. Loops over lines, paragraphs, rows and
candidates are methods proved equal to a specification function or to the
automaton; the lemmas are about that function or automaton. The `...ByText`
lemmas, and those of `Results`, say what these functions and the automaton come
to without naming them: words, markers, bounds, delimiters and outcomes are
literals there, and whole pages are followed from their lines to the candidate. In `Workers`, a
port answers a method's calls from an unknown script and demands that every
call be the one the automaton makes next, so a method that skips, swaps or
repeats a call does not verify.

## What is assumed of the world

`Handoff.dfy` writes these out in `KernelMay`, `DatabaseMay` and `FreshMay`:

- The kernel takes no request, arriving or submitted, whose scope is longer than
  200 characters (`src/dispatch.rs:9-29`).
- The kernel grants a claim under a new claim id and a higher fencing token, at
  any time, for a route it does not hold as completed, and completes a claim
  only under the route's latest token.
- The database runs at READ COMMITTED. A statement sees what is committed when
  it runs and what its own transaction wrote; an insert that meets an
  uncommitted row with its key waits until that transaction ends; a commit is
  atomic; rows are selected in any order.
- Fresh ids have never been handed out before.
- Every call may fail, before or after taking effect; a process may die and the
  database may end a transaction at any moment. A process that starts over, or
  goes on after a time-out, is a new pass.
- The Rules Service keeps one rule per `candidate_id` it reads from a scope.
- `Leases.dfy`: the kernel renews a lease only for the revision it holds and
  then moves on to the next one.

UUID text, base64url and JSON lists follow the `uuid`, `base64` and `serde_json`
crates, which are not part of the repository: RFC 9562 section 4 for UUID text,
RFC 4648 sections 3.2, 3.5 and 5 for base64url.

## Where the code and its documentation differ

The model follows the code.

- `src/parser.rs:35-36` says candidates are separated by a line containing only
  `---`; the code splits at every `---`, also inside a line. Hence the exact
  conditions of `ActionsPreservedIff`, `FeatsPreservedIff` and
  `ConditionsPreservedIff`.
- `src/book_adapter.rs:65-67` says condition headings have no punctuation; the
  code allows any non-letter after the first character of a word.
- `src/book_adapter.rs:353-355` says the bound counts shouty and level-marker
  lines; the code counts shouty lines only, and lets a ninth in.
- `src/book_adapter.rs:30-31` says `Trigger` is read as a comma-separated list;
  the parser keeps its value whole.
- `migrations/0001_init.sql:17-18` and `src/domain.rs:115-118` promise stable
  content for a document version; no key enforces it. It fails exactly in the
  histories where a pass commits a run after a conflicting one was committed
  between its digest check and its commit (`TwoDigestsIff`); `ConcurrentDigests`
  is one.
- `src/dispatch.rs:22` gives the admit scope as `~`-separated fields; a location
  or a name may itself hold `~`. Another accepted location prints the same scope
  exactly when the location has a `~` after its first character, or the name has
  one with no `!` and no bar before it (`AdmitScopesCollideIff`).
- `README.md:165-178` says a submission that is not accepted can be retried; the
  code submits scopes of any length, and one over the kernel's limit is never
  accepted. A route is completed only if every candidate of its key fits
  (`CompletedFits`), a short well-formed request can have one that does not
  (`NeverCompleted`), and `CompletableIff` says exactly what can be completed.

## Model

| member | source | states |
|---|---|---|
| Domain.RuleTypeRoundTrip | src/domain.rs:46-66 | the text of a rule type reads back as that rule type, and no two share a text |
| Text.TrimmedLinesOf | src/book_adapter.rs:107-108 | the lines a page is read as, exactly: the texts between its line feeds, trimmed and in order, blank ones included, without a last empty one |
| Text.ShoutyIff | src/book_adapter.rs:138-144 | a text is shouty exactly when upper-casing leaves it alone and lower-casing does not |
| Text.Whitespace | src/parser.rs:62 | the characters trimming takes off |
| Text.CapitalizeLetters | src/book_adapter.rs:146-156 | capitalizing makes the first letter upper case, the others lower case, and changes nothing else |
| Text.TitleCaseWords | src/book_adapter.rs:146-159 | a title has the text's words in order, each capitalized, one space between |
| Parser.ParseBlock | src/parser.rs:58-158 | the line loop computes the field-by-field reading `ReadBlock`: last value per label, lists, references in order, left-over count, graded confidence |
| Parser.ExtractBracketedReferences | src/parser.rs:190-205 | the loop ends and returns the names between `[[` and `]]`, left to right, trimmed, blank ones skipped |
| Parser.FindFirst | src/parser.rs:193-195 | the search finds an occurrence whenever there is one, and the first |
| ParserLaws.ParseCandidatesConcat | src/parser.rs:49-56 | parsing `a`, a separator line and `b` is parsing `a` and then `b`, for all texts |
| ParserLaws.BlocksFacts | src/parser.rs:49-56 | every block is trimmed, not empty and free of separators |
| ParserLaws.SourceTextsCover | src/parser.rs:49-56 | the candidates' source texts are disjoint slices of the text in order; everything around them is whitespace and separators |
| ParserLaws.LastValueIsLast | src/parser.rs:82-91 | a field's value is that of the last line with its label, and absent exactly when there is none |
| ParserLaws.ConfidenceValues | src/parser.rs:101-157 | confidence is 0.9, 0.75, 0.7, 0.55 or 0.2; which one, exactly, by type, left-over lines and whether anything was read; so the clamp never acts |
| BlockTexts.FieldsByText | src/parser.rs:75-95 | name, trigger, effect, traits, requirements and prerequisites are each set by the last line whose text before its first colon is that very word, in any case and trimmed, and by no other line |
| BlockTexts.TypeByText | src/parser.rs:75-83 | the rule type is what the last `type` line names, else what a first line names by itself, else none |
| BlockTexts.TypeWordIff | src/parser.rs:160-170 | a value names a rule type exactly when it is one of that type's words, `free action` with a space or a dash |
| BlockTexts.ReferencesByText | src/parser.rs:91-98 | the references are the items of the `see also` and `references` lines, line by line, and then the bracketed names |
| BlockTexts.GradeByText | src/parser.rs:95-157 | confidence and inference, exactly, by whether anything was read, a type is stated, and how many lines say none of the nine words; the inference's text |
| BlockTexts.SaysOnce | src/parser.rs:172-179 | a line says at most one word, with one value |
| BlockTexts.ListItems | src/parser.rs:181-188 | a list is its items between commas, trimmed and in order, blank ones left out |
| ParserLaws.ReferencesRead | src/parser.rs:190-205 | plain segments with bracketed names between them give back the trimmed names in order, blank ones left out |
| ParserLaws.ReferencesRoundTrip | src/parser.rs:190-205 | trimmed, non-empty names come back exactly |
| ParserLaws.UnclosedReference | src/parser.rs:195-197 | nothing is read from an opening bracket that is never closed |
| BookBlocks.SectionsPartition | src/book_adapter.rs:103-124 | cutting lines at headings loses, reorders and repeats nothing |
| BookBlocks.SectionsAtHeadings | src/book_adapter.rs:103-124 | sections start exactly at the heading lines; no body or preamble line is one |
| BookBlocks.GroupParagraphs | src/book_adapter.rs:212-229 | the loop returns the groups between blank lines, each joined by single spaces |
| BookBlocks.FirstParagraph | src/book_adapter.rs:212-229 | lines without a blank one are one paragraph, and a blank line keeps what follows out of it |
| BookBlocks.PrintBlockText | src/book_adapter.rs:187-203 | a block with every field, spelled out line by line |
| BookBlocks.BlocksMeaning | src/parser.rs:49-158 | printed blocks parse to their meanings, in order, if and only if no block holds the separator |
| BookActions.DetectHeading | src/book_adapter.rs:126-136 | the search returns the heading under the first marker that fits |
| BookActions.HeadingIff | src/book_adapter.rs:126-136 | a line is a heading exactly when some marker ends it after a non-empty shouty name, whatever the order of the markers |
| ActionTexts.HeadingByText | src/book_adapter.rs:79-144 | the same over the five markers as texts, each with its own type and the title of what stands before it |
| BookActions.SplitEntries | src/book_adapter.rs:103-124 | the loop returns the page's sections at action headings |
| ActionTexts.EntriesByText | src/book_adapter.rs:103-124 | the entries hold every line of the page from the first heading on, once and in order; each opens with a heading and holds no other |
| BookActions.ClauseOf | src/book_adapter.rs:236-249 | a clause's value is the first sentence: it runs past no sentence end and stops at one whenever something follows; value and rest hold the paragraph's words once each and in order, after the label word |
| BookActions.RenderBlock | src/book_adapter.rs:161-204 | the paragraph loop prints the entry's trait paragraph, last clause of each kind and collected effect |
| BookActions.PrintFields | src/book_adapter.rs:187-203 | the lines come in the fixed order, each optional one exactly when its field is present |
| ActionTexts.EntryByText | src/book_adapter.rs:161-249 | an entry's traits, trigger, requirements and effect by its paragraphs' text: the first paragraph when in upper case and of at most two words, the first sentence of the last paragraph that opens with `Trigger` or `Requirements`, and all that these leave |
| ActionTexts.TraitParagraph | src/book_adapter.rs:161-174 | lines under a heading, set off by a blank one, are the trait exactly when in upper case and of at most two words, and then prose after the blank line is the effect |
| ActionTexts.StandPage | src/book_adapter.rs:95-204 | a page with a trait line and a blank line, from its lines to the candidate |
| BookActions.EntriesFacts | src/book_adapter.rs:103-136 | every entry has a known type and a printable name, and its body lines are trimmed lines of the page |
| BookActions.ActionsPreservedIff | src/book_adapter.rs:95-204 | parsing the converted page gives one candidate per entry with exactly that entry's type, name, traits, trigger, requirements and effect, no prerequisites, no inferences and confidence 0.9, if and only if no entry holds `---` in its name, trait paragraph, last clause of either kind or effect texts |
| BookActions.ActionsPreserved | src/book_adapter.rs:95-204 | so it does for every page without `---` |
| BookActions.ActionsLost | src/book_adapter.rs:95-204 | a page for which it does not |
| BookWords.WordsConserved | src/book_adapter.rs:161-249 | an entry's words are its trait, label, requirement, trigger and effect words, each once, plus overwritten clauses, of which there are none exactly when each kind occurs at most once; effect words keep their order |
| BookFeats.TryReadHeadingBlock | src/book_adapter.rs:363-401 | the bounded scan returns the heading its run makes and the index where the run stops |
| BookFeats.SplitFeatEntries | src/book_adapter.rs:306-351 | the lookahead scan ends and returns the page's feat sections |
| BookFeats.FeatPartition | src/book_adapter.rs:306-351 | the non-blank lines are a dropped prefix, then heading spans and bodies alternating: nothing lost, reordered or used twice |
| BookFeats.FeatsAtHeadings | src/book_adapter.rs:306-351 | no entry is invented or missed: each starts at a heading block of the page, has that block's run as span and its reading as heading, and the non-blank lines up to the next as body; no heading starts outside the spans |
| BookFeats.RunLengthIff | src/book_adapter.rs:368-385 | the run stops at the end of input, at the first line that cannot stand in a heading or after the ninth name, and only there |
| BookFeats.HeadingIff | src/book_adapter.rs:358-406 | a block is a heading exactly when its run holds a level marker; the name is the first line's, the traits the other names in first-seen order, and no marker becomes either |
| FeatTexts.MarkerByText | src/book_adapter.rs:403-406 | a level marker is the word FEAT, a space and a number |
| FeatTexts.MarkerBound | src/book_adapter.rs:353-390 | lines that can stand in a heading, opened by a name, are a heading if and only if at most eight names stand before the first level marker |
| FeatTexts.HeadingByText | src/book_adapter.rs:306-401 | exactly where a feat starts: at a line in upper case that is no level marker, followed by lines in upper case and blank ones up to a level marker with at most eight names before it |
| FeatTexts.LorePage | src/book_adapter.rs:259-297 | the documented page of several traits and markers, from its lines to the candidate |
| BookFeats.TraitsReadBackIff | src/book_adapter.rs:412-414 | a printed trait list reads back exactly when no trait holds a comma |
| BookFeats.FeatsPreservedIff | src/book_adapter.rs:298-304 | parsing the converted page gives one feat per entry with its exact name, traits and body lines, if and only if no name, trait or body line of an entry holds `---` and no trait a comma |
| BookFeats.FeatsPreserved | src/book_adapter.rs:298-419 | so it does for every page without `---` and without a comma in a trait line |
| BookFeats.FeatsLost | src/book_adapter.rs:298-419 | a page for which it does not |
| BookConditions.SplitConditionEntries | src/book_adapter.rs:441-469 | the loop returns the glossary's sections at condition headings |
| BookConditions.GlossaryPartition | src/book_adapter.rs:441-488 | the lines scanned are those after the first anchor line that are neither blank nor page numbers, in order; the entries hold each of them from the first heading on, once and in order, and start exactly at headings |
| ConditionTexts.AnchorByText | src/book_adapter.rs:446-450 | the anchor is `list of conditions` in any case |
| ConditionTexts.KeptByText | src/book_adapter.rs:451-473 | a line after it is dropped exactly when it is blank or a number |
| ConditionTexts.ConditionHeadingByText | src/book_adapter.rs:475-488 | a heading is one or two words, each with a capital first and no other |
| ConditionTexts.GlossaryPage | src/book_adapter.rs:433-497 | a glossary with a page number inside an entry, from its lines to the candidate |
| BookConditions.ConditionsPreservedIff | src/book_adapter.rs:433-497 | parsing the converted page gives one condition per entry with its exact name and body lines, if and only if no heading or body line of an entry holds `---` |
| BookConditions.ConditionsPreserved | src/book_adapter.rs:433-497 | so it does for every page without `---` |
| BookConditions.ConditionsLost | src/book_adapter.rs:433-497 | a page for which it does not |
| Decimals.ReadPrintInt | src/dispatch.rs:98-100 | every `i64` prints to digits and at most a minus that read back as it |
| Decimals.PrintNatDigits | src/parser.rs:112-115 | the ten digits by their values, most significant first |
| Decimals.ReadInt64Iff | src/dispatch.rs:98-100 | a text reads as an `i64` exactly when it is the number's digits after any leading zeros and a sign |
| Decimals.PrintInt64Length | src/dispatch.rs:115-130 | an `i64` takes 1 to 20 characters, and the least one takes 20 |
| Uuids.ReadPrintUuid | src/dispatch.rs:95-97 | a printed UUID reads back as it |
| Uuids.ReadUuidIff | src/dispatch.rs:95-97 | a text reads as a UUID exactly when it is one of its four spellings, each digit in either case |
| Base64Url.Alphabet | src/dispatch.rs:126 | the characters by their values |
| Base64Url.EncodeWrites | src/dispatch.rs:126 | each three bytes are written as one number in base 64, the last one or two as if zeros followed |
| Base64Url.EncodeShape | src/dispatch.rs:126 | n bytes encode to ceil(4n/3) characters of the URL-safe alphabet |
| Scopes.EncodedDigestLength | src/dispatch.rs:126 | a 32-byte digest encodes to 43 characters |
| Base64Url.DecodeIff | src/dispatch.rs:132-141 | a text decodes to some bytes if and only if it is their encoding: one spelling per digest |
| Scopes.ParseInputScopeIff | src/dispatch.rs:76-113 | which scopes are accepted and as what source, exactly |
| Scopes.MissingDelimiter | src/dispatch.rs:77-93 | a scope is refused for a missing delimiter exactly when it has no bar, or no `!` before it, or no `#` before that, or no `@` before that |
| Scopes.BadPart | src/dispatch.rs:95-105 | with every delimiter in place it is refused for the first of id, version, location and digest that is bad, and which, exactly |
| Scopes.InputScopeRoundTrip | src/dispatch.rs:76-113 | a printed source reads back if and only if its location is not empty and holds no `!` and no bar; version, digest and text are arbitrary |
| Scopes.ConfidenceText | src/dispatch.rs:119-123 | the text submitted for a confidence, read as a decimal, is within half a hundredth of it, and at a tie ends in an even digit |
| Scopes.ConfidenceTexts | src/dispatch.rs:119-123 | the parser's five confidences are submitted as 0.90, 0.75, 0.70, 0.55 and 0.20 |
| Scopes.AdmitScopeReads | src/dispatch.rs:115-130 | a reader of the admit grammar always gets id, parser version, type, document, version and digest exactly and the confidence within half a hundredth, and gets location and name if and only if the location holds no `~` |
| Scopes.AdmitScopeExample | src/dispatch.rs:115-130 | one admission, spelled out |
| Scopes.AdmitScopesEqualIff | src/dispatch.rs:115-130 | two admit scopes are equal exactly when all header fields and the location-and-name tails are |
| Scopes.AdmitScopeInjective | src/dispatch.rs:115-130 | without `~` in the locations, equal scopes mean equal id, type, confidence, document, version, digest, location and name |
| Scopes.AdmitScopesCollideIff | src/dispatch.rs:115-130 | another accepted location prints the same scope if and only if the location has a `~` after its first character, or the name has one with no `!` and no bar before it |
| Scopes.AdmitScopeLengthIs | src/dispatch.rs:115-130 | the scope's length, exactly |
| Scopes.AdmitScopeLength | src/dispatch.rs:43-130 | at most 176 characters beside location and name, so 24 for those always fit into 200, and for the longest type and version no more do |
| Scopes.FitsIff | src/dispatch.rs:9-29 | a candidate's scope is within the limit exactly when type, version, location and name leave room |
| Scopes.InputScopeLength | src/dispatch.rs:76-113 | a printed input scope's length, exactly |
| JsonLists.DecodeEncodeList | src/postgres_candidate_repository.rs:71-77 | a written string list reads back, whatever characters it holds |
| JsonLists.JsonExamples | src/postgres_candidate_repository.rs:71-77 | two lists as written, and two malformed texts, which read as no strings |
| Rows.RowColumns | src/postgres_candidate_repository.rs:214-236 | each column alone holds its own field |
| Rows.RowRoundTrip | src/postgres_candidate_repository.rs:92-117 | storing a candidate and loading it is the identity on every field |
| Rows.LoadRows | src/postgres_candidate_repository.rs:79-119 | the rows of a list of candidates load as that list |
| Workers.Port.Ask | src/kernel_client.rs:44-68 | a call must be the automaton's next one, and its answer moves the automaton on |
| Workers.Port.Fresh | src/parser.rs:145 | the generator gives as many ids as there are blocks |
| Workers.Load | src/postgres_candidate_repository.rs:79-119 | the select and its two error exits |
| Workers.LoadAndCommit | src/postgres_candidate_repository.rs:163-177 | the already-processed exits: load, commit, return the caller's own source |
| Workers.CheckDigests | src/postgres_candidate_repository.rs:137-148 | refuses exactly when some recorded digest differs |
| Workers.StoreAndCommit | src/postgres_candidate_repository.rs:212-244 | one insert per candidate in order, then the commit, stopping at the first failure |
| Workers.ParseOnce | src/postgres_candidate_repository.rs:122-251 | every statement and every early return, in order |
| Workers.Dispatch | src/dispatch.rs:53-74 | one submission per candidate in order, stopping at the first that is not accepted; unknown actions and malformed scopes touch nothing |
| Workers.WorkOnce | src/lib.rs:170-231 | a whole pass makes exactly the automaton's calls and returns its result |
| Results.RoutesIff | src/lib.rs:175-178 | a pass finds nothing to do exactly when no route is eligible, and otherwise claims the first |
| Results.OutcomeIff | src/lib.rs:180-231 | exactly which answers end a pass with `ClaimLost`, `RequestUnavailable`, `UnknownAction`, `LostBeforeCompletion` and `Completed`: for a parsed route the last exactly when its completion is answered by it |
| Results.KernelFailureIff | src/dispatch.rs:53-74 | exactly when a pass fails at the kernel: a call that fails, a submission not accepted, a scope that cannot be read, a blank text |
| Results.DatabaseFailureIff | src/postgres_candidate_repository.rs:122-251 | exactly when a pass fails at the database: a call that fails, or a digest that differs from one its transaction sees for the document version |
| Results.ResultMeans | src/lib.rs:198-231 | in every reachable state, whatever a pass has reported holds: a completed route is held as completed, handed over whole, and the number is that of the stored candidates; a claim lost at the end was handed over whole too; an unknown action is the request's |
| Results.AlreadyProcessedIff | src/domain.rs:137-147 | over every history, a completed pass reports its candidates as already processed exactly when it is not the pass that committed them |
| Results.SubmissionReads | src/dispatch.rs:63-67 | every submission is a `pf2e.rules.admit` from which the receiver reads a candidate stored for its route's key |
| Safety.NextExtends | src/postgres_candidate_repository.rs:150-250 | no step changes or loses a request, claim, run, row, admission, completion or id |
| Safety.Reloaded | src/postgres_candidate_repository.rs:44-50 | the stored rows, once each and in any order, load as the stored candidates in some order |
| Safety.AnsweredPassOk | src/lib.rs:170-231 | whatever its call is answered, what a pass knows stays true: job, transaction, ids, submissions so far |
| Safety.CompletionDelivers | src/lib.rs:198-223 | a completion that takes effect finds every candidate of the route's key submitted and accepted |
| Safety.StepKeepsInv | src/lib.rs:170-231 | every step of every interleaving keeps the whole invariant |
| Safety.ReachesInv | src/lib.rs:233-258 | so it holds in every reachable state |
| Guarantees.StepRefinesWriteOnceMap | src/postgres_candidate_repository.rs:150-250 | the tables refine a write-once map: a step leaves it as it is or binds one new key to the parse of a request that names it |
| Guarantees.WriteOnce | src/postgres_candidate_repository.rs:29-34 | once bound, a key keeps its candidates for the rest of the run |
| Guarantees.RowsBelongToRuns | migrations/0001_init.sql:22-44 | candidate rows exist only for committed runs, each reads back, and no two share an id |
| Guarantees.ParseOnceReturnsStored | src/domain.rs:137-147 | what a pass gets back is what is stored for its key, each candidate once |
| Guarantees.ParsesAgree | src/postgres_candidate_repository.rs:150-210 | any two passes, later or racing, that get candidates for one key get the same ones |
| Guarantees.NoLostHandoff | src/lib.rs:198-230 | a completed parse route has an accepted admission, with its own source, for every candidate stored for its key, and those are the parse of a text received under the key |
| Guarantees.CompletedFits | src/dispatch.rs:63-66 | no reachable state holds a parse route as completed when a candidate stored for its key is over the limit |
| Guarantees.ReceiverHoldsTheRun | src/domain.rs:15-27 | a receiver that keeps one rule per `candidate_id` holds, for a key, only stored ids, and exactly those once a route with the key is completed |
| Guarantees.SameIdSameCandidate | src/domain.rs:15-27 | admissions with one id agree on everything but the location: no two candidates are ever merged |
| Guarantees.OneRulePerBlock | src/domain.rs:15-27 | after completion there are as many rules for the key as blocks in the parsed text |
| VersionDigests.StepCalm | src/postgres_candidate_repository.rs:137-148 | as long as no two passes that may commit conflict, what a digest check found holds until the commit |
| VersionDigests.CalmOneDigest | src/postgres_candidate_repository.rs:137-148 | then a document version never gets two digests, whatever else runs at the same time |
| VersionDigests.SerialOneDigest | src/postgres_candidate_repository.rs:137-148 | in particular in serial histories |
| VersionDigests.TwoDigestsIff | src/postgres_candidate_repository.rs:137-244 | over every history: a version gets two digests if and only if a pass commits a run after a conflicting one was committed between its digest check and its commit |
| DigestRace.ConcurrentDigests | src/postgres_candidate_repository.rs:137-148 | a run in which one version gets two |
| Progress.GoodGoesOn | src/lib.rs:170-231 | over requests whose `pf2e.parse` ones are readable and consistent, a pass that meets no fault ends only idle or by completing |
| Progress.BusyAccounted | src/lib.rs:170-231 | in any run of any number of passes, every busy pass that ended completed a route or met a fault |
| Progress.BoundedPasses | src/lib.rs:170-258 | with R requests and at most F faults there are at most R + F busy passes, and when that many have ended every route is completed |
| Liveness.AnswersAdvance | src/lib.rs:170-231 | every answer ends a pass or takes it down in (stage, candidates left) |
| Liveness.SoloKept | src/lib.rs:233-258 | a lone worker's claim stays the latest and its transaction stays open until it ends them |
| Liveness.NeverStuck | src/lib.rs:170-231 | the answer a lone worker's pass hopes for is possible if and only if what it submits next, if it submits, is within the limit |
| Liveness.LoneWorkerGoesOn | src/lib.rs:233-258 | the same at every moment of every run of a lone worker, or the pass waits for a dead pass's transaction, which the database can end |
| Delivery.CompleteAll | src/lib.rs:233-258 | from a settled state over deliverable requests, with 200 fresh ids for each open route, a lone worker completes every route without a fault |
| Delivery.CompletableIff | src/lib.rs:233-258 | at any moment of any run of a lone worker, some continuation completes every route if and only if, for every key, what is stored for it, or the parse of some request that names it, fits every route that names it |
| Delivery.DeliverableByText | src/domain.rs:22-27 | when a key names one text, that is: every route fits its own candidates |
| Delivery.NeverCompleted | src/dispatch.rs:63-66 | a short, well-formed request the kernel takes and never holds as completed |
| Leases.RenewLeaseIfDue | src/lib.rs:260-275 | asks with the held revision exactly when the margin is reached, and changes the lease only on a grant |
| Leases.AsksIff | src/lib.rs:260-275 | it asks exactly when at most twenty whole seconds are left, and a grant sets revision and expiry to what was granted |
| Leases.RegularIsSafe | src/lib.rs:260-275 | each failed renewal costs one gap of the margin, so no call comes at or after expiry |
| Leases.TooSlow | src/instance_lease.rs:14-19 | otherwise a regular run, from a good start, that lets the lease expire |
| Leases.LeaseSafety | src/instance_lease.rs:14-19 | checks at most d apart and at most k failures in a row are always safe if and only if (k + 1) * d is at most 20 seconds |
| Leases.LostAnswerIsFinal | src/lib.rs:267-273 | a worker keeps the kernel's revision exactly while no granted renewal's answer is lost; after one is, its lease never changes again |
| RunLoop.Run | src/lib.rs:233-258 | every turn checks the lease it finds and then makes one whole pass, whatever became of the renewal and of earlier passes; the lease held at the end |
| RunLoop.CheckThenPass | src/lib.rs:241-243 | each turn's check, with the revision it asks for, comes directly before that turn's pass |

## Left out

- Signing, enrollment, certificates, subscriptions, environment variables and HTTP: plumbing over a client library that is not part of the repository.
- The status-code decoders of claims, routes, routed requests and renewals, and the health endpoint: one match or comparison each. Their outcomes are the constructors of `Passes.Reply`.
- SQL text, the connection pool and migrations: the statements are the calls of `Passes.Call`, over tables with their keys; a failed connection is a failed `Begin`.
- The `request_id` and `created_at` columns: nothing reads them.
- Full Unicode: letters, case and whitespace are ASCII; characters are otherwise arbitrary, and lengths count characters.
- `f64`: confidences are real numbers; `{:.2}` rounds to nearest, ties to even.
- The position of the `Trigger` and `Requirements` lines among a block's lines has no meaning of its own; it is fixed by `PrintFields`.
- `Section` carries the lines a heading was read from, which the source's entries do not; it is there to state that nothing is lost.
- `RunLoop.Journal` has no counterpart in the source; it records the order in which a turn does things.
- RunLoop.Run: a finite number of turns, without sleeping; `Leases.Safe` places a pass's calls anywhere between two checks.
- The claim lease's length (`CLAIM_LEASE_SECONDS`): a claim may lapse at any time.
- Fairness of the kernel: `Liveness.NeverStuck` and `Delivery.CompletableIff` say which answers and continuations are possible, not that they come.
- Exhaustion of the UUID supply: both ask that enough fresh ids are left.
- Reserved Material filtering: a policy no code implements.
- Log output and the heartbeat.
