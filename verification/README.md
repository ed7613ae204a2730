# Decision gate: a verified model

This project models a deterministic gate in front of an agent's tools. The agent proposes a tool call as text. The gate
turns the text into one typed, canonical action, asks its policies for a verdict, records the decision in a hash-chained,
signed session log, reserves budget for what it allows, and hands the caller a single-use token. Redeeming the token makes
the gate rebuild the action from its own record, run the tool on that, and settle the reservation.

The model is written in the program's own form. Pure code (canonical JSON, URLs, paths, money, policies, decisions, the
ledger's transition function) is functions and datatypes; code that loops or updates state (the JSON emitter, percent and
dot-segment normalisation, counters and folds, chain verification, sessions, the store, the gate, replay reports, bundle
comparison, boundary probing) is methods and classes, each proved against a specification function. The lemmas then say
what those functions guarantee, for all inputs and over all runs.

## How the parts fit

| files | content |
|---|---|
| `Texts`, `Ordering`, `Syntax`, `Unicode`, `Wrappers` | digits, splitting, string orders, lexical rules, table parameters |
| `Json`, `JsonParser`, `JsonRoundTrip`, `JsonSafety` | RFC 8785 text, the strict parser, and that they undo each other |
| `JsonSpelling`, `JsonGrammar`, `JsonMeaning` | every RFC 8259 spelling of strings and values, and what each text denotes or is refused for |
| `Money`, `Percent`, `DotSegments`, `Url`, `Path` | the canonicalisers and their fixed points |
| `Escapes`, `Hosts`, `UrlText` | what percent-encoded text, a host text and a URL text say, and exactly which are accepted |
| `Manifest`, `Canonical`, `Wire`, `Binding` | canonical actions, the tool's own rendering, what the action hash binds |
| `Arguments`, `Actions` | what every kind of argument says, the action a text is, and when two texts are one action |
| `Cedar`, `Decide`, `Guardrails`, `Diff`, `Boundaries` | policy evaluation, the three verdicts, how they move, bundle comparison |
| `Requests` | what a decision looks at, read off the records that are hashed, and the reasons it gives |
| `BankServicing`, `BankOracle`, `BankRefines` | the bank-servicing bundle and its policy-free statement of intent |
| `Snapshots`, `Ledger`, `LedgerLaws` | snapshots, events, the fold, conservation laws of every log |
| `GateSpec`, `GateLog`, `GateLaws`, `Approvals` | the gate's atomic steps, the invariant of every log it writes, and its consequences |
| `Settlements`, `Calls` | what settling changes, and what every public call answers and changes |
| `GateRuns`, `Sweeping`, `Payouts`, `BankRuns`, `World` | interleaved runs, sweeps, payouts, caps and tainting, all sessions at once |
| `Refunds`, `Witnesses` | one concrete refund from its text to its token, and whole runs in which a documented promise fails |
| `Chain`, `ChainLaws`, `Records`, `Commitments`, `Tokens` | sealing, verifying, what a chain tail, a decision hash and a token commit to |
| `Shell`, `Store`, `Gate` | the stateful classes, each call proved equal to its specification |
| `Replay`, `ReplayLaws`, `Tallies`, `History` | replaying a session, what is reported of a faulty one, and re-deciding it under another bundle |

A run of one session is a sequence of atomic steps (`GateRuns.Step`): opening, an open that lost a race, submitting,
redeeming a token, finishing a run, settling, sweeping and granting an approval, in any order. Executing a token is two of
them, with the tool running in between. `GateLog.Good` is the invariant every step keeps: the cached state is the fold of the log, and every event in
the log is one the gate can justify from the events before it. The safety results are consequences of that invariant.

Parameters, with the laws the proofs use:

- The digest is any function from text to text; where a result needs it not to collide, the two texts in question are named.
  `Decide.ValidBundle` only asks that it spells hashes.
- A signature is a function of the message (Ed25519 is deterministic); forging is excluded where stated, by saying that only
  hashes of logs the gate wrote are signed.
- Unicode normalisation, the unassigned category, IDNA and IPv6 spelling are the functions of `Unicode.Tables`;
  `Unicode.Lawful` lists their laws, and only fixed-point results assume them. The law of IPv6 spelling,
  `Unicode.AddressLawful`, is assumed only where a URL argument admits IP hosts; it lets an address keep any zone it was
  written with, non-ASCII ones included.
- The clock, the resolver's answer about an address and the outcome of a tool are inputs of the steps.
- A manifest is well formed as its parser guarantees (`Manifest.WellFormed`); one bundle serves a whole run.

Where the program's own documentation and its code differ, the code is modelled:

- Tokens are documented as single use. A token's tool runs at most once exactly when executions of the token do not
  overlap, because the tool runs outside the lock (`GateRuns.RunsOnceIffNoOverlap`), as long as the log has room for the
  settlement. Until its expiry, every open token can be redeemed twice at once (`GateRuns.OpenTokenOverlaps`; a run from
  the first call is `Witnesses.OneRefundRunsTwice`), and once a log holds 2^53 events, which approvals alone can reach
  (`GateRuns.GrantsFill`), every open token that has not expired runs again without overlap
  (`GateRuns.FullLogRunsAgain`, `Witnesses.FullLogRefundRunsTwice`).
- What is allowed but not yet executed is documented as counting against the cap. A token that expires while its tool is
  running stops counting: a sweep releases it, and the tool's own settlement is then refused (`Sweeping.SweptWhileRunning`).
  The bound on what tools were told to pay out therefore has in it what was released of the refunds they were handed
  (`Payouts.PayoutsAreCapped`); without such a release it is the cap itself (`Payouts.PayoutsWithinCaps`), and a run
  that pays out 600.00 under a cap of 500.00 is `Witnesses.SweptRefundsOverspend`.
- An empty path becomes a slash and percent-encoding lengthens what it encodes, so a canonical URL can outgrow the input
  limit: it is a fixed point exactly up to that limit (`Url.UrlFixedPoint`, `Wire.WireFixed`, `Binding.WireDenotesAction`),
  and every accepted host name has a URL that outgrows it (`Url.FullUrlGrows`).
- Boundary probes are thinned to eight values per dimension. They miss no difference between two rules exactly when each
  boundary value has a probe on its side of every literal (`Boundaries.ProbesCompleteIff`), as is always so up to eight
  values (`Boundaries.ProbesAreComplete`); a ninth can be missed (`Boundaries.NinthValueIsMissed`).

## Model

| member | source | states |
|---|---|---|
| `JsonRoundTrip.RoundTrip` | src/gatekeeper/core/strictjson.py:80-155 | strict parsing of canonical text gives the value back exactly when text and nesting are within the limits |
| `JsonRoundTrip.JcsInjective` | src/gatekeeper/core/strictjson.py:115-155 | equal canonical texts are of equal values, without any limit |
| `JsonSafety.AcceptedIsCanonicalisable` | src/gatekeeper/core/strictjson.py:39-99 | any accepted text denotes a value whose own canonical text exists and reads back as it |
| `JsonSpelling.ReadText` | src/gatekeeper/core/strictjson.py:80-99 | every spelling of a string (raw, short escape, hex escape of either case, surrogate pair) scans to that string |
| `JsonSpelling.ReadString` | src/gatekeeper/core/strictjson.py:80-99 | so does every spelling of any code points, lone surrogates included |
| `JsonSpelling.StringSpelled` | src/gatekeeper/core/strictjson.py:80-99 | conversely, every string the scanner accepts is such a spelling of what it returns |
| `JsonSpelling.EscapeIsShortest` | src/gatekeeper/core/strictjson.py:102-108 | the canonical text spells each character, and no spelling of it is shorter |
| `JsonSpelling.Utf16IsExact` | src/gatekeeper/core/strictjson.py:111-112 | the sort key of a character is its UTF-16 encoding |
| `JsonGrammar.DocumentRead` | src/gatekeeper/core/strictjson.py:80-99 | a text of the grammar, with any white space, parses to what its tree reads as, or is refused for its first repeated member name, fraction, exponent, constant or integer out of range |
| `JsonMeaning.LoadsExact` | src/gatekeeper/core/strictjson.py:80-99 | such a text is loaded exactly as the value it denotes, whatever its spelling and member order, or refused for its size, its reading, a lone surrogate or its depth |
| `JsonMeaning.AcceptedIsWritten` | src/gatekeeper/core/strictjson.py:80-99 | every accepted text is one of the grammar and denotes what it is loaded as |
| `JsonMeaning.DenotesOne` | src/gatekeeper/core/strictjson.py:48-99 | a text denotes one value |
| `Json.JcsText` | src/gatekeeper/core/strictjson.py:115-155 | the fragment-appending emitter produces the canonical text or refuses an unsafe integer |
| `Json.Emit` | src/gatekeeper/core/strictjson.py:115-148 | one value's fragments follow what was already emitted; success exactly when all integers are safe |
| `Ordering.SortSetSorts` | src/gatekeeper/core/strictjson.py:111-140 | member order is ascending in UTF-16 code units and lists exactly the keys |
| `Ordering.SortSetUnique` | src/gatekeeper/core/strictjson.py:111-140 | there is one such order, so insertion order never shows |
| `Ordering.KeyInjective` | src/gatekeeper/core/strictjson.py:111-112 | different strings have different sort keys, surrogate pairs included |
| `Money.MoneyRoundTrip` | src/gatekeeper/core/money.py:26-57 | the executor's spelling reads back as the same amount exactly below 10^15 whole units |
| `Money.AcceptedRange` | src/gatekeeper/core/money.py:26-48 | an accepted amount is in bounds, in an allowed currency and below 10^15 whole units |
| `Money.SameAmountIffSameDecimal` | src/gatekeeper/core/money.py:26-48 | two accepted spellings give one minor amount exactly when they denote one decimal |
| `Money.MoneyExact` | src/gatekeeper/core/money.py:22-48 | an amount is accepted exactly from a decimal of no more places than the currency has, of that many minor units within the bounds |
| `Percent.NormaliseText` | src/gatekeeper/core/url.py:44-69 | the index-and-buffer loop computes the unit-by-unit normalisation, with its refusals |
| `Percent.NormaliseIsNormal` | src/gatekeeper/core/url.py:44-69 | the result has no escaped unreserved character, upper-case escapes and only literals |
| `Percent.NormaliseIdempotent` | src/gatekeeper/core/url.py:44-69 | normalising again changes nothing |
| `Percent.NormaliseSegments` | src/gatekeeper/core/url.py:44-69 | a path normalises exactly when each of its segments does, and normalising commutes with splitting on a slash |
| `Percent.NormalSegments` | src/gatekeeper/core/url.py:44-69 | no escape straddles a separator: each segment of a normal path is normal |
| `Escapes.SignsKept` | src/gatekeeper/core/url.py:44-69 | normalising keeps what a text says: its octets, and its bare delimiters as such |
| `Escapes.SameNormalForm` | src/gatekeeper/core/url.py:44-69 | two texts have one normal form exactly when they say the same |
| `Escapes.AcceptedExact` | src/gatekeeper/core/url.py:44-69 | a text is accepted exactly when every percent sign starts an escape and every other character is allowed or beyond ASCII |
| `Escapes.Utf8Exact` | src/gatekeeper/core/url.py:64-65 | the octets written for a character are its UTF-8 encoding by RFC 3629, and no others are |
| `Escapes.LengthExact` | src/gatekeeper/core/strictjson.py:84-85 | the size limit counts the octets of the text's UTF-8 encoding |
| `DotSegments.RemoveDotSegments` | src/gatekeeper/core/url.py:72-83 | the stack loop equals the recursive walk |
| `DotSegments.RemoveDotsFixed` | src/gatekeeper/core/url.py:72-83 | the result is rooted, has no dot segment, comes from the input and is a fixed point |
| `DotSegments.AgreesWithRfc` | src/gatekeeper/core/url.py:72-83 | equal to section 5.2.4 of RFC 3986 except for one final empty segment after a final dot segment |
| `Url.HostFixed` | src/gatekeeper/core/url.py:86-124 | an accepted host is clean, canonicalises to itself and, if it is an address, keeps its zone as written |
| `Hosts.Ipv4Exact` | src/gatekeeper/core/url.py:113-120 | an IPv4 host is four numbers up to 255 in shortest decimal spelling |
| `Hosts.HostExact` | src/gatekeeper/core/url.py:86-124 | a host text is accepted exactly as the A-labels of its normal form, when these are a name or an allowed address, or as an allowed bracketed address; a refused address gets its own code |
| `Hosts.NamesOnly` | src/gatekeeper/core/url.py:86-124 | where addresses are not allowed, an accepted host is no address in any spelling and its last label no number |
| `Hosts.SameHost` | src/gatekeeper/core/url.py:86-124 | two accepted texts are one host exactly when they encode alike |
| `UrlText.UrlReads` | src/gatekeeper/core/url.py:166-213 | a text in pieces told apart by their separators is accepted exactly as what its pieces say, field by field |
| `UrlText.UrlExact` | src/gatekeeper/core/url.py:25-213 | a URL is accepted exactly from such pieces: every accepted text is in pieces |
| `UrlText.UrlNamesOnly` | src/gatekeeper/core/url.py:86-213 | the host of an accepted URL is no address where the manifest allows none |
| `Url.AcceptedParts` | src/gatekeeper/core/url.py:166-213 | what acceptance guarantees of every field of a URL, the zone of an address host included |
| `Url.UrlFixedPoint` | src/gatekeeper/core/url.py:166-221 | canonicalising the rebuilt URL gives the same fields, or refuses it exactly for its length |
| `Url.FullUrlGrows` | src/gatekeeper/core/url.py:166-221 | for every accepted name, an accepted URL at the input limit whose rebuilt text is longer and is refused for it |
| `Path.PathIsStackWalk` | src/gatekeeper/core/url.py:139-163 | the result is the walk of the segments from the root and every name on it is a real name |
| `Path.PathFixedPoint` | src/gatekeeper/core/url.py:139-163 | an accepted path canonicalises to itself, or is refused exactly for its length |
| `Path.SandboxContains` | src/gatekeeper/core/url.py:139-163 | an accepted path starts with the sandbox's own segments |
| `Path.PathExact` | src/gatekeeper/core/url.py:139-163 | a path is accepted exactly as the walk of its segments: within the length, of allowed characters, absolute, inside the sandbox |
| `Canonical.CollectArguments` | src/gatekeeper/core/canonical.py:77-85 | the filling loop gives the canonical arguments, or the first refusal in name order |
| `Canonical.ActionIsCanonical` | src/gatekeeper/core/canonical.py:62-109 | each argument is the canonical form of a parsed one, required ones are there, the rest of the action follows |
| `Canonical.ActionIsRenderable` | src/gatekeeper/core/canonical.py:124-139 | every canonical action can be rendered for its tool |
| `Arguments.TextExact` | src/gatekeeper/core/canonical.py:201-218 | a text is accepted exactly as its normal form, when it is assigned, clean of controls and bidirectional overrides, and fits |
| `Arguments.StableTextKept` | src/gatekeeper/core/canonical.py:201-218 | clean text in normal form is kept as it is exactly when it fits |
| `Arguments.SameText` | src/gatekeeper/core/canonical.py:201-218 | two accepted texts are one exactly when their normal forms are |
| `Arguments.EmailExact` | src/gatekeeper/core/canonical.py:221-236 | an address is accepted exactly from a local part and a host name around its one at sign |
| `Arguments.EmailNamesOnly` | src/gatekeeper/core/canonical.py:221-236 | the domain of an accepted address is never an IP address |
| `Arguments.TemplateExact` | src/gatekeeper/core/canonical.py:176-198 | a template is accepted exactly with a known name and all its parameters, each as it says |
| `Arguments.ValueExact` | src/gatekeeper/core/canonical.py:142-173 | an argument of any kind is accepted exactly as what it says |
| `Arguments.SameValue` | src/gatekeeper/core/canonical.py:142-173 | two accepted arguments have one canonical value exactly when they are the same: text up to normal form, money up to its decimal, URLs by what their pieces say, paths by their walk |
| `Actions.SuffixExact` | src/gatekeeper/core/url.py:127-136 | the parents a host hangs under are exactly its suffixes of at least two labels |
| `Actions.ActionExact` | src/gatekeeper/core/canonical.py:62-109 | a text is accepted exactly as the action its arguments say, every field stated apart from how it is computed |
| `Actions.SameAction` | src/gatekeeper/core/canonical.py:62-109 | two accepted texts are one action exactly when tool, caller, session and every argument are the same |
| `Wire.TextFixed` | src/gatekeeper/core/canonical.py:201-218 | accepted text is accepted again, unchanged |
| `Wire.EmailFixed` | src/gatekeeper/core/canonical.py:221-236 | a canonical address canonicalises to itself |
| `Wire.TemplateFixed` | src/gatekeeper/core/canonical.py:176-198 | a canonical template value canonicalises to itself |
| `Wire.WireFixed` | src/gatekeeper/core/canonical.py:124-173 | the tool's rendering of any canonical value canonicalises to it, or is refused exactly for its length |
| `Binding.WireDenotesAction` | src/gatekeeper/core/canonical.py:62-139 | the tool's arguments, submitted as text, are the checked action exactly when they fit the input limits |
| `Binding.ActionInRange` | src/gatekeeper/core/canonical.py:43-56 | every canonical action has canonical JSON to hash |
| `Binding.HashBindsAction` | src/gatekeeper/core/canonical.py:43-56 | one action hash denotes one action, derived parents included, unless its two texts collide |
| `Cedar.Interpret` | src/gatekeeper/core/bundle.py:128-141 | an evaluation allows exactly when the engine answered Allow without errors; no decision is an error |
| `Cedar.MemberExact` | src/gatekeeper/core/bundle.py:119-132 | an entity is in a group exactly when some chain of parents, however long, leads to it |
| `Requests.PoliciesReadTheRecord` | src/gatekeeper/core/decide.py:45-59 | policies read nothing but what the envelope, the snapshot and the action hash record; of a template only its name |
| `Requests.SnapshotExact` | src/gatekeeper/core/manifest.py:404-424 | a snapshot is let through exactly when everything in it is declared |
| `Requests.SnapshotIsState` | src/gatekeeper/core/ledger.py:69-75 | a session's snapshot is its state, committed plus open counters, and the facts in order |
| `Requests.BudgetExact` | src/gatekeeper/core/ledger.py:203-212 | a budget reserves the integer its argument shows, and nothing if the argument was not sent |
| `Guardrails.VerdictExact` | src/gatekeeper/core/decide.py:62-114 | exactly when ALLOW and REQUIRE_APPROVAL are given; any error or forbid is final |
| `Requests.ReasonsExact` | src/gatekeeper/core/decide.py:92-114 | the reasons are the permits that let the call through, or else what erred or forbids, as it stands and then as if approved |
| `Requests.RefusedEarly` | src/gatekeeper/core/decide.py:83-90 | what never reaches the policies is denied for the first check it fails, and no action is named |
| `Guardrails.ForbidsNeverRaise` | src/gatekeeper/core/decide.py:98-114 | adding any forbids never raises the rank of the verdict |
| `Guardrails.PermitNeverLowersIff` | src/gatekeeper/core/decide.py:98-114 | adding a permit keeps or raises the rank exactly when it evaluates cleanly where it is consulted |
| `Guardrails.ApprovalExact` | src/gatekeeper/core/decide.py:45-114 | approving the action turns REQUIRE_APPROVAL into ALLOW for the same reasons; a default deny stays, and so does any denial whose first evaluation matched nothing |
| `Guardrails.OtherApprovalsDoNothing` | src/gatekeeper/core/decide.py:45-59 | approving any other hash changes nothing |
| `Diff.Compare` | src/gatekeeper/core/diff.py:254-287 | every widening, the first tightenings and the counts, each probe classified by verdict before reasons |
| `Diff.ProbeExact` | src/gatekeeper/core/diff.py:254-287 | which probes are decided, and that an approved one is decided by both bundles with exactly the candidate's own hash approved |
| `Diff.ForbidsWidenNothing` | src/gatekeeper/core/diff.py:254-287 | a change that only adds forbids has no widened probe |
| `Diff.CompareForbids` | src/gatekeeper/core/diff.py:89-91 | the report of such a change never widens |
| `Boundaries.Boundaries` | src/gatekeeper/core/diff.py:125-135 | the candidate loops give the sorted boundary set, thinned to eight |
| `Boundaries.ProbesAreComplete` | src/gatekeeper/core/diff.py:104-135 | up to eight boundary values, two rules over the mined literals agree on the whole span exactly when they agree on the probes |
| `Boundaries.ProbesCompleteIff` | src/gatekeeper/core/diff.py:104-135 | for any number of values, the probes miss no difference between such rules exactly when each boundary value has a probe on its side of every literal |
| `Boundaries.ProbesAreSpread` | src/gatekeeper/core/diff.py:125-135 | above eight values, eight strictly increasing members starting at low |
| `Boundaries.NinthValueIsMissed` | src/gatekeeper/core/diff.py:125-135 | a concrete span and two rules that the thinned probes cannot tell apart |
| `Boundaries.MinesEveryInteger` | src/gatekeeper/core/diff.py:104-122 | mining finds exactly the integers that stand anywhere in either policy set |
| `BankServicing.BankWellFormed` | policies/bank-servicing/manifest.json:1-78 | the bank-servicing manifest is well formed |
| `BankOracle.Covered` | spec/oracle.py:17-21 | the entity hierarchy reaches an allowlist exactly when the host or domain is under it |
| `BankOracle.EvalAuto` | policies/bank-servicing/policies.cedar:21-27 | what the automatic refund permit evaluates to |
| `BankOracle.EvalRefundApproved` | policies/bank-servicing/policies.cedar:30-36 | what the approved refund permit evaluates to |
| `BankOracle.EvalNoEgress` | policies/bank-servicing/policies.cedar:7-12 | what the egress guardrail evaluates to |
| `BankRefines.RefundRefines` | spec/oracle.py:24-38 | refunds: verdict and reasons of the statement of intent, for all amounts, currencies, budgets, approvals and accounts |
| `BankRefines.EmailRefines` | spec/oracle.py:41-53 | emails: the same for all domains, labels and approvals |
| `BankRefines.FetchRefines` | spec/oracle.py:41-58 | fetches: the same for all hosts, schemes, labels and approvals |
| `BankRefines.ReportRefines` | spec/oracle.py:61-64 | reports: the same for all templates |
| `BankRefines.ReadRefines` | spec/oracle.py:67-68 | reads are always allowed |
| `BankRefines.DecisionIsRuling` | src/gatekeeper/core/decide.py:71-81 | the recorded decision carries the ruling with its reasons sorted |
| `BankRefines.AllowedRefundFits` | policies/bank-servicing/policies.cedar:21-36 | an allowed refund fits the session cap, and the automatic cap without its approval |
| `BankRefines.TaintedEgressDenied` | policies/bank-servicing/policies.cedar:5-12 | with both labels, no email or fetch is anything but denied |
| `Snapshots.SnapshotOrderFree` | src/gatekeeper/core/model.py:156-174 | facts in another order build the same snapshot or are refused alike |
| `Snapshots.StrictIffDistinct` | src/gatekeeper/core/model.py:151-153 | sorted facts are accepted exactly when no entity is named twice |
| `Ledger.CountersOf` | src/gatekeeper/core/ledger.py:69-75 | the updating loops give committed plus reserved, name by name |
| `Ledger.FoldLog` | src/gatekeeper/core/ledger.py:196-200 | the folding loop gives the fold, or the first refusal |
| `LedgerLaws.ApplySound` | src/gatekeeper/core/ledger.py:119-193 | every accepted event keeps the state well formed and its reservations ordered and unique |
| `LedgerLaws.FoldSound` | src/gatekeeper/core/ledger.py:196-200 | so does every accepted log, and its length is the state's sequence number |
| `LedgerLaws.Conservation` | src/gatekeeper/core/ledger.py:69-179 | per counter, what a cap sees is everything reserved less everything released |
| `LedgerLaws.LabelsAreCommitted` | src/gatekeeper/core/ledger.py:172-179 | the labels are exactly those of committed settlements |
| `LedgerLaws.LabelsGrow` | src/gatekeeper/core/ledger.py:172-179 | labels only grow |
| `LedgerLaws.ApprovalsStand` | src/gatekeeper/core/ledger.py:181-191 | an approval stands exactly when granted and not consumed since; consumptions never exceed grants |
| `LedgerLaws.GrantBetween` | src/gatekeeper/core/ledger.py:181-191 | between two consumptions of a hash there is a grant of it |
| `LedgerLaws.SettledOnce` | src/gatekeeper/core/ledger.py:142-179 | each settlement closes exactly one opening |
| `GateLog.SubmitGood` | src/gatekeeper/shell/gate.py:75-101 | a submission, wherever it is refused, keeps the log justified and used approvals consumed |
| `GateLog.SettleGood` | src/gatekeeper/shell/gate.py:157-165 | settling keeps the log justified, labels from the manifest |
| `GateLog.SweepGood` | src/gatekeeper/shell/gate.py:130-140 | sweeping keeps the log justified |
| `GateLog.GrantGood` | src/gatekeeper/shell/gate.py:167-169 | granting keeps the log justified |
| `GateLog.OpenGood` | src/gatekeeper/shell/session.py:80-88 | opening keeps the log justified |
| `Settlements.CommitExact` | src/gatekeeper/shell/gate.py:157-165 | committing an open reservation moves its amounts from open to committed, adds its tool's labels, leaves the counters and closes it |
| `Settlements.ReleaseExact` | src/gatekeeper/shell/gate.py:157-165 | releasing it lowers each counter by its amount, adds nothing to labels or commitments and closes it |
| `Settlements.OnlyOpenSettles` | src/gatekeeper/shell/gate.py:157-165 | nothing else settles |
| `Settlements.FinishExact` | src/gatekeeper/shell/gate.py:122-128 | a tool's success commits its reservation in the run and its failure releases it |
| `Calls.OpenCallExact` | src/gatekeeper/shell/session.py:80-88 | opening leaves the first principal in place and every other session alone |
| `Calls.SubmitDecides` | src/gatekeeper/shell/gate.py:79-90 | a submission records the decision on its session's own snapshot, and nothing more unless it is an ALLOW |
| `Calls.SubmitCallExact` | src/gatekeeper/shell/gate.py:75-101 | a receipt carries a token exactly when the call is allowed, and that token gets its job until it expires |
| `Calls.CheckCallSound` | src/gatekeeper/shell/gate.py:106-121 | whatever token gets a job was minted, has not expired, and the job is that of its reservation |
| `Calls.CheckCallExact` | src/gatekeeper/shell/gate.py:106-121 | a minted token is refused after its expiry, refused once settled, and otherwise gets its recorded action's job |
| `Calls.CheckCallIsStep` | src/gatekeeper/shell/gate.py:106-121 | the check is the redeeming step of a run |
| `Calls.SettleCallExact` | src/gatekeeper/shell/gate.py:157-165 | settling commits or releases in its own session and leaves every other alone |
| `Calls.ApproveCallExact` | src/gatekeeper/shell/gate.py:167-169 | an accepted approval stands in its session and changes nothing else |
| `Calls.SweepCallExact` | src/gatekeeper/shell/gate.py:130-140 | a sweep answers the expired ids and closes exactly those |
| `GateLaws.OpenReservationsVouched` | src/gatekeeper/shell/gate.py:84-121 | each open reservation names an ALLOW of exactly its action hash and declared budget |
| `GateLaws.BudgetIsDeclared` | src/gatekeeper/shell/gate.py:171-176 | an allowed call reserves its declared budget; the empty fallback is never taken |
| `GateLaws.SettledForGood` | src/gatekeeper/shell/gate.py:103-165 | a reservation is opened and settled at most once and stays closed in every longer log |
| `GateLaws.RedeemExact` | src/gatekeeper/shell/gate.py:106-121 | redeeming depends on the open reservation alone and otherwise always yields the recorded action's job |
| `GateLaws.MintedRedeems` | src/gatekeeper/shell/gate.py:99-121 | a minted token never meets a mismatch: it redeems until its reservation is settled |
| `GateLaws.SubmitMints` | src/gatekeeper/shell/gate.py:93-101 | only an ALLOW yields a token, and the token names the reservation just recorded |
| `Approvals.BackedAreConsumed` | src/gatekeeper/shell/gate.py:89-92 | every ALLOW that used an approval is followed at once by its consumption |
| `Approvals.ApprovalsCover` | src/gatekeeper/shell/gate.py:79-101 | approval-backed ALLOWs of an action never outnumber its grants |
| `GateRuns.RunGood` | src/gatekeeper/shell/gate.py:75-169 | in every interleaving the state is the fold of the log and every event is justified |
| `GateRuns.RunnersGetWhatWasChecked` | src/gatekeeper/shell/gate.py:103-128 | every runner got the wire arguments of an action the gate had allowed |
| `GateRuns.FinishSettles` | src/gatekeeper/shell/gate.py:122-127 | settling a finished job works exactly when nothing settled it before |
| `GateRuns.RunsOnceIffNoOverlap` | src/gatekeeper/shell/gate.py:103-128 | a token's runner runs at most once exactly when no two executions of it overlap |
| `GateRuns.OpenTokenOverlaps` | src/gatekeeper/shell/gate.py:103-128 | in every run, any unsettled token can be redeemed twice at once at any times up to its expiry, so its runner runs twice |
| `GateRuns.GrantsFill` | src/gatekeeper/shell/gate.py:167-169 | from any run with an unsettled token, approvals alone reach a full log that still holds it |
| `GateRuns.OpenTokenRedeems` | src/gatekeeper/shell/gate.py:103-121 | an unsettled token redeems to its checked job up to and including its expiry, and is refused after it |
| `GateRuns.FullLogRunsAgain` | src/gatekeeper/shell/gate.py:103-128 | in any run with a full log nothing settles, so an unsettled token runs twice without any overlap, at any times up to its expiry |
| `GateRuns.LateOpenExact` | src/gatekeeper/shell/session.py:80-88 | the append of an open that lost a race is refused and changes nothing; otherwise it is the open |
| `Sweeping.SweepExact` | src/gatekeeper/shell/gate.py:130-140 | a sweep closes exactly the expired reservations, in id order, and changes nothing else |
| `Sweeping.SweptWhileRunning` | src/gatekeeper/shell/gate.py:130-165 | after a sweep a running tool's settlement is refused exactly when its token had expired |
| `Payouts.PayoutIsBudget` | src/gatekeeper/shell/gate.py:103-128 | the amount text a refund's runner was handed reads back as what its recorded call reserved |
| `LedgerLaws.PartOfCounter` | src/gatekeeper/core/ledger.py:69-179 | of any set of reservations, what was reserved less what was released is at most what a cap sees |
| `Payouts.PayoutsAreCapped` | src/gatekeeper/shell/gate.py:75-165 | without overlapping executions, the amounts in the arguments of all refunds handed to runners sum to at most the cap plus what was released of those refunds |
| `Payouts.PayoutsWithinCaps` | src/gatekeeper/shell/gate.py:75-165 | without overlapping executions, they stay within the cap itself while nothing handed to a runner is released |
| `Payouts.EveryRunIsCapped` | src/gatekeeper/shell/gate.py:75-169 | in every interleaving, committed plus reserved refunds stay within 500000, and within 50000 without a grant |
| `Refunds.RefundSubmits` | src/gatekeeper/shell/gate.py:75-101 | one concrete refund text, in any opened session whose automatic cap has room and in which no approval of it stands: it is allowed and its token names the reservation just recorded |
| `Witnesses.OneRefundRunsTwice` | src/gatekeeper/shell/gate.py:103-128 | a run from the first call in which one allowed refund is handed to two runners at once |
| `Witnesses.FullLogRefundRunsTwice` | src/gatekeeper/shell/gate.py:103-128 | a run from the first call in which one allowed refund is handed out twice, without overlap, on a full log |
| `Witnesses.SweptRefundsOverspend` | src/gatekeeper/shell/gate.py:130-165 | a run from the first call, without overlap or approval, in which a sweep lets runners be told to pay more than the automatic cap |
| `BankRuns.RefundsAreCapped` | policies/bank-servicing/policies.cedar:21-36 | both refund caps, for every log the gate can have written |
| `BankRuns.TaintedForGood` | policies/bank-servicing/policies.cedar:5-12 | after commits that carried both labels, every later email or fetch is denied |
| `BankRuns.TaintedSubmitDenied` | src/gatekeeper/shell/gate.py:75-88 | submitting to a tainted session is denied and yields no token |
| `World.AllCallsGood` | src/gatekeeper/shell/gate.py:72-169 | any public calls, opening on its own included, on any sessions, across restarts, keep every session good |
| `World.EverySessionIsCapped` | src/gatekeeper/shell/gate.py:72-169 | and the bank-servicing caps hold in each of them |
| `Shell.EventLog.Append` | src/gatekeeper/shell/log.py:93-101 | appends the record sealed over the previous hash and keeps the chain |
| `Shell.Session.Append` | src/gatekeeper/shell/session.py:46-52 | folds first: a refused event changes neither state nor log |
| `Shell.Session.constructor` | src/gatekeeper/shell/session.py:20-26 | a session starts as the fold of its log |
| `Store.SessionStore.Load` | src/gatekeeper/shell/session.py:20-26 | loading refuses a broken chain or an impossible history |
| `Store.SessionStore.Get` | src/gatekeeper/shell/session.py:69-78 | an existing session only, loaded at most once |
| `Store.SessionStore.Open` | src/gatekeeper/shell/session.py:80-88 | the session, created and opened by its first principal |
| `Gate.Gate.Transact` | src/gatekeeper/shell/gate.py:79-101 | the locked part of a submission is its specification step |
| `Gate.Gate.Open` | src/gatekeeper/shell/gate.py:72-73 | opening a session on its own, as specified |
| `Gate.Gate.Submit` | src/gatekeeper/shell/gate.py:75-101 | a submission moves only its own session, as specified |
| `Gate.Gate.Check` | src/gatekeeper/shell/gate.py:106-121 | token verification and the locked check, as specified |
| `Gate.Gate.Settle` | src/gatekeeper/shell/gate.py:157-165 | settlement, as specified |
| `Gate.Gate.Sweep` | src/gatekeeper/shell/gate.py:130-140 | the sweeping loop, as specified |
| `Gate.Gate.Approve` | src/gatekeeper/shell/gate.py:167-169 | an approval opens the session if need be and grants, as specified |
| `Chain.VerifyChain` | src/gatekeeper/shell/log.py:33-58 | the verifying loop reports each record's faults in order |
| `Chain.VerifiedIffInPlace` | src/gatekeeper/shell/log.py:33-58 | no problems exactly when every record is canonical, numbered, linked, hashed and signed |
| `ChainLaws.EventInjective` | src/gatekeeper/shell/log.py:24-30 | the hashed JSON determines number, event and predecessor |
| `ChainLaws.TailCommits` | src/gatekeeper/shell/log.py:33-58 | two verified lists with one last hash are the same list of events |
| `ChainLaws.SealedVerifies` | src/gatekeeper/shell/log.py:24-58 | what the gate seals verifies, with or without the public key |
| `ChainLaws.VerifiedIsPrefix` | src/gatekeeper/shell/log.py:24-58 | under an ideal signature a verified list is a prefix of a log the gate wrote |
| `Records.WrittenIsSealable` | src/gatekeeper/shell/log.py:93-101 | every event the gate records has canonical JSON, so sealing never fails |
| `Commitments.DecisionCommits` | src/gatekeeper/core/decide.py:62-81 | a decision hash commits, across bundles, to the outcome, the policies, the gate, the envelope and the whole snapshot |
| `Tokens.MintedVerifies` | src/gatekeeper/shell/tokens.py:100-155 | a minted token verifies to its payload up to and including its expiry |
| `Tokens.VerifiedIsMinted` | src/gatekeeper/shell/tokens.py:100-119 | a token that verifies is the one the key mints for its payload |
| `Tokens.MintInjective` | src/gatekeeper/shell/tokens.py:152-155 | different payloads never share a token |
| `Replay.Replay` | src/gatekeeper/shell/replay.py:36-63 | the replaying loop fills the report as specified |
| `Replay.ReplayReport.Check` | src/gatekeeper/shell/replay.py:66-95 | one decision's effect on the report |
| `ReplayLaws.ReplayOkIff` | src/gatekeeper/shell/replay.py:18-95 | a replay is clean exactly when chain, fold and every decision follow |
| `Tallies.ReplayAccounts` | src/gatekeeper/shell/replay.py:36-95 | of records whose events fold, a replay names exactly the faulty decisions, in order, and counts every decision once |
| `ReplayLaws.WrittenReplays` | src/gatekeeper/shell/replay.py:36-95 | any session the gate wrote replays with exact equal to decisions equal to snapshots derived |
| `ReplayLaws.RestartRecovers` | src/gatekeeper/shell/session.py:20-26 | reloading a written log finds the session as it was left |
| `History.Impact` | src/gatekeeper/shell/replay.py:98-124 | the re-deciding loop computes the impact |
| `History.ImpactIsChanges` | src/gatekeeper/shell/replay.py:98-124 | over a written session, exactly the decisions whose verdict changes, in order |
| `History.SameBundleNoImpact` | src/gatekeeper/shell/replay.py:98-124 | the bundle that wrote a session changes none of it |
| `History.ForbidsLowerHistory` | src/gatekeeper/shell/replay.py:98-124 | every change a bundle with more forbids makes lowers the recorded verdict |

## Left out

- Surrogates in raw text: Dafny's characters are scalar values; surrogate escapes in JSON text are modelled and refused.
- The recursion limit of the host's JSON parser: extremely deep text is refused here with `too_deep` instead of `malformed_json`.
- Event bodies of the wrong JSON shape: events are typed, so `bad_decided`, `unknown_event_kind` and type checks inside bodies cannot arise.
- SHA-256, Ed25519, Unicode, IDNA and IPv6 tables: parameters with the laws listed above; that Python's tables obey them is not proved here.
- Base64 and the three-part spelling of tokens: a token is its signed bytes and its signature.
- Files, fsync, key files and PEM: an append happens or the step does not.
- The policy engine's attribution of errors by message: an erroring policy is reported by its own id.
- Cedar beyond what the policies use: conditions are built from attributes, sets, comparisons, sums, hierarchy and Boolean operators.
- `Manifest.parse`, schema generation and configuration checks: their guarantees are a precondition.
- Probe enumeration, suffix and argument values, structural differences and report printing of the bundle comparison.
- `pending` and `snapshot_at`: listings over the same fold.
- The proxy, the upstream process, the command line, the demo and the evaluation suite.
- DNS resolution and address classes: the refusal of a pinned address is an input of the check.
- Locks: each call is atomic on its session, and execution is two atomic steps.
- Store.SessionStore.Open: reads the principal and appends in one step, where the program reads first; an open that lost that race is the step `GateRuns.LateOpen`, refused with `session_already_open`, which changes nothing (`GateRuns.LateOpenExact`).
- Gate.Gate.Settle: a negative reservation id is refused with one code, where the program may first look up a record from the end of the list; both refuse and change nothing.
