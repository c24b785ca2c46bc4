# Verified model of the record-to-entity pipeline

A Dafny model of a data pipeline that turns vendor files into entities with trusted values: rows are read and
numbered, columns are mapped to canonical fields, cells become attribute observations, records are judged and
quarantined, records are resolved to entities through identity keys, entities are merged, and one trusted value per
field is kept with its history. The database tables are modelled as maps and sequences of rows; each SQL function is
one step on them. Match confidences are exact integers in hundredths, golden scores exact integers in thousandths.

Where the source updates state, the model has classes whose methods are proved against functions on snapshots of that
state (`EntityTables`, `GoldenAttributes`, `QuarantineTables`, `ColumnClaim`, `Database`, `BatchTables`, `Runner`); what the
pipeline promises is then proved about those functions, over every input or every run.

## Modules

- `Ordering`, `Sequences`: code-point text order, tuple order, sorted sets; sequences up to reordering.
- `Keys`, `KeyMeaning`, `Scoring`: identity keys with their strengths; the score of a candidate and the decision among
  candidates.
- `EntityStore`, `ResolutionMeaning`: entities, links, keys, candidates, merges; looking up, linking, creating, merging,
  accepting.
- `MergeForest`, `StableIds`, `KeyIndex`, `MatchEvidence`: tombstones as a forest, what whole runs of resolving and
  accepting keep, which recorded keys go on finding their owner, and what stands behind an automatic link.
- `TombstoneChains`, `EmployerCandidates`, `LookupOrder`: runs in which promises fail. `RoleMailboxes`: two people's rows
  with one mailbox.
- `Survivorship`, `FieldRules`, `GoldenTable`, `GoldenMeaning`, `GoldenHistory`, `GoldenBuilder`, `ConcurrentBuilders`: choosing a value, keeping the
  versioned table up to date, its history, the statements that do it, and any number of builders at once.
- `Normalization`, `RowMeaning`, `Validation`, `VerdictMeaning`, `Quarantine`: observations of a row, the verdict on a record, and what follows.
- `SourceOrder`, `RecordSubjects`, `RecordPipeline`, `EntityGolden`, `PathsAgree`, `PipelineTables`: the record-at-a-time
  path and the stage-at-a-time path, and exactly when they end in the same place. `MisfiledKeys`, `CrossTypeBatch`: the
  tables from which they do not, and files that lead there. `FailingRows`, `Replays`: loads in which statements raise and
  transactions roll back, and failed rows put through again.
- `Mapping`, `MappingMeaning`, `Collisions`: proposing a field for a column, and settling columns that claim the same one.
- `Readers`, `Load`, `OutcomeMeaning`: regrouping and numbering rows; the counters of a batch through its load and its
  replays; what the outcome of a record reports.

The modules named `...Meaning`, with `FieldRules` and `RoleMailboxes`, say what an operation does in terms of its inputs
and the rows it leaves only, with each table of fields, keys, weights and limits written out a second time.

## Where the code keeps less than its comments say

Each of these is proved, with the exact condition under which the promise holds.

- A merged id resolves only while it is at most 15 hops from its root; the walk then raises
  (services/resolution/src/resolution/repository.py:314-333), and listings of premises accepted one after another reach
  every depth. `MergeForest.ResolvesIffWithinFifteenHops`, `TombstoneChains.EveryDepthIsReachable`.
- Accepting a candidate that was filed for a record's employer merges the person into the company, because the lookup
  joins the record's own link (services/resolution/src/resolution/repository.py:336-348). Types survive an accept
  exactly when the candidate has the type of that link. `StableIds.AcceptKeepsTypesIff`.
- Key rows are copied with the type they have, unless the survivor holds the key already
  (services/resolution/src/resolution/repository.py:275-290). So a merge hides a recorded key from the records that
  carry it exactly when the two entities hold one key under different types, and over whole runs every key goes on
  finding its owner exactly when no accept does that. `KeyIndex.MergeHidesNothingIff`, `KeyIndex.KeyIndexNeverForgetsIff`,
  `EmployerCandidates.EmployerCandidateLosesAPerson`.
- The comment at services/pipeline/src/record_pipeline/unit.py:108-112 asks that the two paths never differ. They
  always produce the same facts. Golden values agree exactly when it makes no difference what type the
  record-at-a-time path built each entity as; that path uses the record's type
  (services/pipeline/src/record_pipeline/unit.py:239-253), the other the entity's
  (services/golden/src/golden/repository.py:10-24). `PathsAgree.PathsMeetIff`. They agree on every batch while active
  entities hold keys of their own type only, as after any run that merged only candidates filed for the record itself
  (`PathsAgree.PathsMeet`, `PathsAgree.PathsMeetAfterSelfFiledRuns`); a decisive key of another type makes some batch
  differ (`MisfiledKeys.AgreeOnEveryBatchIff`), and two files and one accepted candidate leave such a key
  (`CrossTypeBatch.PathsPart`).
- The comment at services/pipeline/src/record_pipeline/runner.py:298-300 wants a replay to mean what the load meant. The
  context rebuilt for it (services/pipeline/src/record_pipeline/runner.py:375-413) forgets that a source lists premises,
  so a replayed listing's web site and mailbox become decisive keys. A replayed row resolves alike exactly when it gives
  neither, or is not such a source's company. `Replays.PlansAlikeIff`, `Replays.ReplayStrengthensAListing`.
- A candidate's score depends on the order of its keys exactly when keys of the top weight differ in strength and the
  uncapped score reaches 0.90; a profile and a role mailbox link in one order and ask a person in the other.
  `Scoring.ScoreIgnoresOrderIff`, `Scoring.SameEvidenceLinksOrAsks`, `LookupOrder.OrderDecides`.
- The doc comment at services/resolution/src/resolution/repository.py:28-29 says an open quarantine item is never
  resolvable. It is, exactly when the record's latest verdict is not invalid: a person may reopen an item that a later
  verdict had resolved. `Quarantine.VisibleIff`.
- A replay that succeeds while its batch is still loading leaves the batch's counters wrong for good, because finishing
  overwrites them (services/ingestion/src/ingestion/repository.py:194-206). `Load.ReconcilesIffNoEarlyReplay`.
- With a record id column the file does not have, one load path refuses the file and the other numbers its rows.
  `Readers.LoadsAgreeIff`.
- The record rules do not look at whose field a value is, so a person row passes on its employer's identity
  (services/validation/src/validation/record_rules.py:68-93). `Validation.PassesOnEmployersIdentityIff`.
- The comment at services/mapping/src/mapping/engine.py:181-182 says corroboration is the only way a name that is not
  exact gets accepted. A similarity of 0.90 is accepted without it, and overrules an ambiguous alias.
  `Mapping.AcceptedIff`, `Mapping.SimilarNameNeedsNoValues`.
- The employer's name is checked on the first usable name but its keys are built from the first name, usable or not
  (services/resolution/src/resolution/employer.py:65-68, services/resolution/src/resolution/keys.py:182-188).
  `RecordSubjects.FakeNameBecomesKeyIff`.
- For fields decided by time, an agreeing newcomer can lower the confidence of the value it agrees with.
  `Survivorship.TimedAgreementLowersConfidenceIff`.

## Model

| member | source | states |
|---|---|---|
| PathsAgree.PathsMeetIff | services/pipeline/src/record_pipeline/unit.py:135-255 | For any list of new rows, the fused path and the staged path end with the same observations, verdicts, quarantine cases, entities, links, keys, candidates and merges, in whatever order the database returns columns, observations, key rows, records, entities and joined rows; and with the same trusted value, confidence and counts in every field of every entity exactly when the type each entity was last built as and its own type choose alike among what its records claim |
| PathsAgree.PathsMeet | services/pipeline/src/record_pipeline/unit.py:135-255 | From any sound store whose active entities hold keys of their own type only, the two paths agree in all of that |
| PathsAgree.SomeOrdersAreComplete | services/pipeline/src/record_pipeline/unit.py:135-255 | What those two ask of the database's orders can be had from every world: a faithful reader (EntityGolden.SomeReaderIsFaithful) and a validating and a building order exist |
| PathsAgree.FusedTakesRightly | services/pipeline/src/record_pipeline/unit.py:210-253 | Where active entities hold keys of their own type only, a fused run keeps it so and builds every entity as the type it is |
| PathsAgree.PathsMeetAfterSelfFiledRuns | services/resolution/src/resolution/pipeline.py:227-255 | So they agree from the store of any run of resolve, accept and reject that merged only candidates filed for the record itself |
| MisfiledKeys.AgreeOnEveryBatchIff | services/pipeline/src/record_pipeline/unit.py:239-253 | Where each key an active entity holds under another type is decisive, readable and that entity's alone, and its year of foundation unclaimed, the paths agree on every batch exactly when there is no such key |
| MisfiledKeys.MisfiledKeyPartsThePaths | services/pipeline/src/record_pipeline/unit.py:239-253 | From any sound tables with such a key, any two rows that carry it and give two years of foundation make the paths end with the same facts and different golden values, at any times and whatever the source is trusted |
| MisfiledKeys.DecisiveKeyIsCarried | services/resolution/src/resolution/keys.py:124-192 | Every decisive key that is not blank, and scoped if a listing id, is just what some row gives |
| CrossTypeBatch.StartIs | services/pipeline/src/record_pipeline/unit.py:135-255 | A company file of one row and a people file of one row through `process`, and an accepted candidate, lead from empty tables to exactly the store of EmployerCandidates, with those two records |
| CrossTypeBatch.PathsPart | services/pipeline/src/record_pipeline/unit.py:239-253 | From there the two paths agree on every batch exactly when the company itself publishes the absorbed person's mailbox |
| PathsAgree.FusedKeeps | services/pipeline/src/record_pipeline/unit.py:210-255 | At every point of a fused run the store is sound, one row per field is current, every entity the batch has touched shows what a recomputation over the records linked so far gives for the type it was last built as, and every other entity shows what it showed before |
| PathsAgree.ProcessKeeps | services/pipeline/src/record_pipeline/unit.py:135-255 | One record through `process` keeps all of that and takes no entity ids but its own two |
| PathsAgree.RowMeansTheSame | services/pipeline/src/record_pipeline/unit.py:103-132 | Columns and observations coming back in another order change no status, count or rule list, only the order of the result rows, and nobody's identity keys or employer |
| PathsAgree.RecordWrites | services/resolution/src/resolution/pipeline.py:77-148 | Resolving a record and its employer writes exactly one link per subject, to an active entity, and changes no existing link or entity; where active entities hold keys of their own type only, that entity has the subject's type and it stays so |
| PathsAgree.EveryRecordIsStreamed | services/validation/src/validation/repository.py:31-54 | The stream of observations validation reads covers every record of the batch, because every row with a column leaves an observation |
| PathsAgree.ResolveAgrees | services/resolution/src/resolution/pipeline.py:187-214 | Resolving a validated batch in row order does to the store exactly what the fused path does record by record |
| PathsAgree.GoldenAgreesIff | services/golden/src/golden/pipeline.py:91-134 | Golden values kept up after every record equal golden values built once, for each touched entity, in any order, at the end, exactly when the types entities were built as make no difference |
| PathsAgree.TypesTell | services/golden/src/golden/strategies.py:173-221 | Two builds of the same claims for two types agree in a field exactly when the two types' strategies choose alike |
| PathsAgree.BuildAllShows | services/golden/src/golden/pipeline.py:114-134 | Building a list of entities in any order leaves each showing what its linked records say and no other entity changed |
| PathsAgree.ValidatedAt | services/validation/src/validation/pipeline.py:208-235 | A record's verdict and quarantine case depend on its own observations and its own standing case, not on which records are validated around it |
| EntityGolden.BuildShowsJoin | services/golden/src/golden/repository.py:39-83 | After a build the entity shows, in every field, what `choose` makes of the claims of its linked records in any order, nothing in a field nobody claims, and no other entity moved |
| FieldRules.BuiltFieldFollowsItsRule | services/golden/src/golden/strategies.py:33-221 | After a build each field of the entity shows a value by the rule written out for it and the type: names and codes the most vendors, what changes over time the latest report, the year of foundation the earliest, anything else the most reliable, ties by reliability, time, vendor name and value; its supporting count is that value's vendors and its confidence the report's reliability, 0.15 for each other vendor agreeing and less 0.10 for each dissenting, within 0.05 and 0.99; and nothing where nobody reports it |
| FieldRules.ChoiceFollowsItsRule | services/golden/src/golden/strategies.py:33-221 | So does every choice, which also names its strategy and the winning report's spelling, record and vendor |
| FieldRules.EvidenceNamesVendors | services/golden/src/golden/strategies.py:184-221 | Its account names exactly the vendors that reported the value, and for each other value exactly the vendors that reported that and their number |
| EntityGolden.ByFieldFiles | services/golden/src/golden/repository.py:69-83 | Grouping the joined rows by field files each field once, loses no observation and invents none |
| EntityGolden.GroupByField | services/golden/src/golden/repository.py:69-83 | The cursor loop groups the rows that way |
| EntityGolden.SameClaimsShowTheSame | services/golden/src/golden/strategies.py:173-221 | Two tables that each show a field's claims agree on its value, confidence, supporting and competing counts |
| RecordPipeline.OutcomeIsGenuine | services/pipeline/src/record_pipeline/unit.py:257-281 | What `process` reports is quarantined, unmatched and without an entity exactly when the verdict is invalid, and then no golden value was written |
| RecordPipeline.TraceEndsInProcess | services/pipeline/src/record_pipeline/unit.py:182-255 | The tables after the last statement `process` sends are those of the whole of it |
| PipelineTables.Database.Process | services/pipeline/src/record_pipeline/unit.py:135-281 | The statements of `process`, with or without building golden values, take the tables to exactly the modelled new state and report the modelled outcome: status, quarantine, entity, match, observations, judgements, failed rules and golden values written; or a statement raises, and exactly what the ones before it wrote is left. One golden row per field stays current |
| RoleMailboxes.SharedMailboxLinksIff | services/pipeline/src/record_pipeline/unit.py:128-171 | Two new people's rows sharing only a mailbox, one after the other through `process`: one entity and no candidate where the role rule failed on neither, and otherwise two entities and one open candidate at 0.89 between them |
| RoleMailboxes.MailboxStrengthIff | services/resolution/src/resolution/keys.py:124-159 | A mailbox of a person's row is a moderate key exactly when some result of the row's verdict is a failed email.role_account; of the other keys listing ids and profiles are strong and no others |
| RoleMailboxes.JudgedARolesIff | services/pipeline/src/record_pipeline/unit.py:128-132 | There is such a result exactly when that rule failed on one of the row's confirmed observations |
| OutcomeMeaning.OutcomeTells | services/pipeline/src/record_pipeline/unit.py:257-281 | What `process` reports can be read off the tables it leaves: sizes, status and error rules from the stored observations and verdict, quarantined from the open item, the entity from the record's own link, and the match from how that link says it came about: no key, linked, 0.60 or more, or less |
| OutcomeMeaning.GoldenCountIs | services/pipeline/src/record_pipeline/unit.py:239-253 | Its golden count is every golden row the record adds plus every value either build keeps on other evidence |
| OutcomeMeaning.RecordIsStored | services/pipeline/src/record_pipeline/unit.py:135-193 | The record is stored with when and by whom it was observed, with the observations its row's cells make and no others, and no other record's change |
| OutcomeMeaning.OwnSubjectIs | services/pipeline/src/record_pipeline/unit.py:151-174 | It is resolved exactly when its verdict is not invalid, as a subject of its file's type under the keys its own confirmed values give for its source, weakened as its verdict and what the source describes say |
| PipelineTables.Database.Record | services/pipeline/src/record_pipeline/unit.py:182-208 | The record, its observations, its verdict and its quarantine item and event are written one after another up to the statement that raises, and nothing else is |
| PipelineTables.Database.ResolveAndBuild | services/pipeline/src/record_pipeline/unit.py:210-253 | Both subjects are resolved before either is built, the record's own entity first, up to the statement that raises; the golden values written and refreshed are summed over both |
| PipelineTables.Database.NormalizeBatch | services/normalization/src/normalization/pipeline.py:120-139 | The staged loop stores each record's observations and changes no other record |
| PipelineTables.Database.ValidateBatch | services/validation/src/validation/pipeline.py:184-235 | The staged loop judges each record against the quarantine state read once at its start |
| PipelineTables.Database.ResolveBatch | services/resolution/src/resolution/pipeline.py:187-224 | A batch that is not completed or has nothing to resolve is refused unchanged; otherwise it is resolved in row order over the list made at its start; linked, created and candidates count the link, non-link and review decisions, and linked plus created is the number of records resolved |
| PipelineTables.Database.BuildBatch | services/golden/src/golden/pipeline.py:91-134 | Nothing to build is refused; otherwise each listed entity is built from a fresh read and the four counters are the sums of what each build did |
| PipelineTables.Database.BuildGolden | services/golden/src/golden/pipeline.py:34-88 | One entity is built from the observations of the records linked to it now |
| PipelineTables.FindEmployer | services/resolution/src/resolution/employer.py:73-104 | The employer subject is exactly the one a person row names well enough, and none for a company row |
| RowMeaning.EmployerIff | services/resolution/src/resolution/employer.py:25-94 | A row's employer is a subject exactly when some name given is not blank and not one of the sixteen words for having none, a web site, profile, listing id, phone or address is given, and some key can be built; it is a company under those keys |
| RowMeaning.EmployerIsBesideAPerson | services/pipeline/src/record_pipeline/unit.py:213-225 | Only a person's row has one, and only where some observation with a value is about the employer |
| PipelineTables.BuildKeys | services/resolution/src/resolution/keys.py:220-243 | The record's own keys are the modelled ones for its entity type |
| PipelineTables.OpenCase | services/pipeline/src/record_pipeline/unit.py:153-208 | A new record's first verdict opens exactly the case the quarantine machine gives it |
| SourceOrder.SortIgnoresOrder | services/pipeline/src/record_pipeline/unit.py:103-125 | Observations with distinct column and index have one order by those two, whatever order they arrive in |
| SourceOrder.ValuesAreOneSubjects | services/resolution/src/resolution/repository.py:49-77 | A subject's values contain a value under a field exactly when one of that subject's confirmed, non-null observations says so; the other subject never leaks in |
| SourceOrder.ConfirmedValues | services/pipeline/src/record_pipeline/unit.py:103-125 | The loop collects those values in source order |
| RowMeaning.ValuesKeepOrder | services/resolution/src/resolution/repository.py:49-77 | A subject's values of a field are what its observations of that field say, one for each, in their order |
| RowMeaning.ReadInOrder | services/pipeline/src/record_pipeline/unit.py:103-125 | Observations are read by column name and, within a column, by position |
| RecordSubjects.SubjectsIgnoreOrder | services/pipeline/src/record_pipeline/unit.py:166-174 | A record's keys, its role-mailbox verdict and its employer do not depend on the order its observations or judgements are stored in |
| RecordSubjects.ReorderedPayloadSaysTheSame | services/normalization/src/normalization/pipeline.py:51-90 | A payload whose columns come back reordered leaves the same observations |
| RecordSubjects.FakeNameBecomesKeyIff | services/resolution/src/resolution/employer.py:60-70 | An employer entity needs a usable name and a corroborating field; a non-employer's name becomes its key exactly when it is the first name given |
| RecordSubjects.RetiredBecomesACompany | services/resolution/src/resolution/employer.py:49-56 | A row naming "Retired" and then a real company creates an entity findable as "Retired" |
| EntityStore.EntityTables.LookUp | services/resolution/src/resolution/pipeline.py:49-74 | The lookup groups the active entities' matching key rows, in whatever order the database returns them, each key as weak as its weaker side, and returns the decision on them |
| ResolutionMeaning.MatchesWeighAll | services/resolution/src/resolution/pipeline.py:49-74 | A match is weighed exactly when its entity owns a found row, and is the score of all the keys found of it in the order found |
| ResolutionMeaning.WeighedAsFound | services/resolution/src/resolution/pipeline.py:61-74 | Entities are weighed in the order of their first rows found |
| ResolutionMeaning.SharedKeyIs | services/resolution/src/resolution/pipeline.py:61-74 | A shared key is strong exactly when stored strong and built strong |
| EntityStore.EntityTables.ResolveSubject | services/resolution/src/resolution/pipeline.py:77-148 | The statements write exactly the modelled consequence of the decision: a link and keys, or an entity, a link, keys and perhaps a candidate |
| EntityStore.EntityTables.InsertKeys | services/resolution/src/resolution/repository.py:177-198 | Keys an entity already holds are not inserted again and nothing else changes |
| ResolutionMeaning.NewRowsAre | services/resolution/src/resolution/repository.py:177-198 | Rows are only added, each under the entity, its type and the record, with a key and strength the record built |
| ResolutionMeaning.LinkedStaysLinked | services/resolution/src/resolution/repository.py:155-174 | A record linked in a role already keeps that link as it was, whatever is decided |
| EntityStore.EntityTables.FollowTombstones | services/resolution/src/resolution/repository.py:314-333 | The bounded loop returns what the sixteen-lookup walk returns |
| EntityStore.EntityTables.MergeInto | services/resolution/src/resolution/repository.py:257-311 | Links move, keys are copied, the absorbed entity becomes a tombstone and the log gains a row counting both moves |
| ResolutionMeaning.MergeIsLogged | services/resolution/src/resolution/repository.py:257-311 | An accepted merge is logged with both entities, the candidate's type and confidence, the number of links moved and of keys the survivor lacked, and only the absorbed entity changes |
| ResolutionMeaning.MergeMoves | services/resolution/src/resolution/repository.py:257-311 | The key rows it adds are the absorbed entity's, same type, value, strength and record; its links move and change in nothing else, and no other key or link changes |
| EntityStore.EntityTables.AcceptCandidate | services/resolution/src/resolution/pipeline.py:227-255 | Each refusal leaves the tables alone, an already merged pair only closes the candidate, and otherwise the record's entity is merged into the candidate's |
| EntityStore.EntityTables.RejectCandidate | services/resolution/src/resolution/pipeline.py:258-268 | A rejection is refused exactly when the candidate is not there or not open, and otherwise closes it; what that changes is in ResolutionMeaning.DecisionsAreRecorded |
| ResolutionMeaning.AcceptanceIs | services/resolution/src/resolution/pipeline.py:227-255 | When each refusal happens, and otherwise what is merged: the root of the record's own entity into the root of the candidate's, unless they are one |
| ResolutionMeaning.DecisionsAreRecorded | services/resolution/src/resolution/pipeline.py:227-268 | An accept that goes through leaves that candidate accepted, a rejection of an open one leaves it rejected and moves nothing else, and a refused one changes nothing |
| MergeForest.WalkFindsRootIff | services/resolution/src/resolution/repository.py:314-333 | A walk of n lookups finds the root the merge log gives exactly when the id is fewer than n hops from it, and gives up otherwise |
| MergeForest.ResolvesIffWithinFifteenHops | services/resolution/src/resolution/repository.py:314-333 | The resolver finds the root within 15 hops, raises beyond, and misses exactly unknown ids |
| MergeForest.FewMergesAlwaysResolve | services/resolution/src/resolution/repository.py:314-333 | While at most 15 merges exist every known id resolves to its root |
| MergeForest.ResolveEntity | libs/common/src/common/lineage.py:32-52 | The second copy of the walk agrees with the first on every id and reports whether it was merged |
| MergeForest.RootIsActive | services/resolution/src/resolution/repository.py:290-298 | Following the log from any id ends at an active entity |
| MergeForest.RootIsUnabsorbed | services/resolution/src/resolution/repository.py:257-311 | Roots are not absorbed by any merge in the log, so there is no cycle |
| MergeForest.ActiveCount | services/resolution/src/resolution/repository.py:290-298 | Active entities plus merges equals entities ever created |
| StableIds.RunKeeps | services/resolution/src/resolution/pipeline.py:187-268 | Over every run of resolve, accept and reject the forest, the links, the key index and the filed candidates stay sound, and each state extends the ones before it |
| StableIds.LinksFollowTheirFirstEntity | services/resolution/src/resolution/repository.py:155-174 | A record's link always points at an active entity, the merge root of the entity it was linked to at any earlier time |
| StableIds.SharedRootIsForever | services/resolution/src/resolution/repository.py:257-311 | Once two ids share a root they share it in every later state |
| StableIds.HandedOutIdsResolveIff | services/resolution/src/resolution/repository.py:314-333 | In every reachable state an id has an active root and resolves to it exactly when at most 15 hops away; hops never exceed the merges made |
| KeyIndex.KeyIndexNeverForgetsIff | services/resolution/src/resolution/repository.py:98-119 | From empty tables, after every step of a run every recorded key brings its owner's live entity into the decision about every record carrying it, exactly when no accept merges two entities holding one key under different types |
| KeyIndex.KeyIndexNeverForgets | services/resolution/src/resolution/repository.py:98-119 | In such a run a key recorded at any time brings its owner's live entity into every later decision about a record carrying it |
| KeyIndex.MergeHidesNothingIff | services/resolution/src/resolution/repository.py:275-290 | From any sound store a merge leaves every findable key findable exactly when the two entities hold no key under different types |
| KeyIndex.LiveAfterMerge | services/resolution/src/resolution/repository.py:275-290 | Key by key: after a merge a key of the absorbed entity is found as the survivor held it if the survivor held it, and any other key is found exactly when it was before |
| KeyIndex.SelfFiledRunsAreClashFree | services/resolution/src/resolution/repository.py:336-348 | Runs that merge only candidates filed for the record itself are among them, and keep every row's type |
| KeyIndex.ResolveKeepsActiveTypes | services/resolution/src/resolution/pipeline.py:77-148 | Where active entities hold keys of their own type only, resolving a subject links it to an entity of its type and keeps it so |
| KeyIndex.MergeKeepsActiveTypesIff | services/resolution/src/resolution/repository.py:275-290 | A merge keeps it so exactly when both entities have one type or the survivor holds every key of the other |
| KeyIndex.EveryKeyFindsIff | services/resolution/src/resolution/repository.py:98-119 | In a sound store every record carrying a recorded key, decided under the key's type, weighs the owner's merge root exactly when each key is held by that root under its own type |
| KeyIndex.WeighedAreOwners | services/resolution/src/resolution/pipeline.py:49-74 | A decision weighs exactly the entities owning the rows its lookup finds |
| StableIds.AcceptKeepsTypesIff | services/resolution/src/resolution/repository.py:336-348 | An accept keeps every row's type exactly when a merge, if there is one, is of a candidate with the type of the record's own link |
| StableIds.MergeKeepsTypesIff | services/resolution/src/resolution/repository.py:257-311 | A merge keeps types exactly when both entities have one type |
| StableIds.MergeKeepsKeyIndex | services/resolution/src/resolution/repository.py:275-290 | After a merge every key ever recorded is held by its owner's new root |
| StableIds.ResolveKeeps | services/resolution/src/resolution/pipeline.py:77-148 | Resolving a new record keeps the invariant and types, links it, and links it to an active entity |
| StableIds.DecisionIsWritten | services/resolution/src/resolution/pipeline.py:91-148 | A link joins an existing entity and files nothing; otherwise the record gets its own new entity, and a candidate is filed exactly for review, for the match no other has more confidence than: new with its key type and confidence, refreshed if open, left if decided. The record's link carries that match's key type and confidence, or says that nothing was built or found; no other link or candidate changes and every key of the record finds the entity |
| StableIds.AcceptKeeps | services/resolution/src/resolution/pipeline.py:227-255 | Accepting any candidate, in any state, keeps the invariant |
| MatchEvidence.LinkNeedsKeyStrongOnBothSides | services/resolution/src/resolution/pipeline.py:61-74 | Behind an automatic link is one key stored strong by the linked entity and built strong by this record, and every other candidate scored lower |
| MatchEvidence.PremisesLinkOnlyByListingId | services/resolution/src/resolution/keys.py:205-243 | A company record from a location source links only through its own source's listing id |
| TombstoneChains.EveryDepthIsReachable | services/resolution/src/resolution/repository.py:314-333 | For every depth some run of listings and accepts leaves an id that many hops from its root |
| TombstoneChains.HandedOutIdCanStopResolving | services/resolution/src/resolution/repository.py:321-333 | Seventeen listings and sixteen accepts leave an id that no longer resolves |
| TombstoneChains.ListingKeysAreBuilt | services/resolution/src/resolution/keys.py:167-192 | The listings of those runs have exactly the keys a location source gives two web sites |
| EmployerCandidates.PersonIsAbsorbed | services/resolution/src/resolution/repository.py:336-348 | Two records and an accepted employer-filed candidate make a person a company's tombstone; the accept clashes exactly when the company publishes the person's mailbox |
| EmployerCandidates.EmployerCandidateLosesAPerson | services/resolution/src/resolution/repository.py:275-290 | Where it does, the person's recorded mailbox finds nobody any more |
| EmployerCandidates.EmployerCandidateMisfilesAPerson | services/resolution/src/resolution/repository.py:275-290 | Where it does not, the next person with that mailbox finds the company |
| EmployerCandidates.WhatTheAcceptDoesToTypes | services/resolution/src/resolution/repository.py:275-290 | Either way row types are lost, and active entities hold keys of their own type only exactly where the key was lost instead |
| EmployerCandidates.ArrivalKeysAreBuilt | services/resolution/src/resolution/keys.py:124-192 | The subjects of that run have exactly the keys their rows give |
| EmployerCandidates.TheEmployerIsNamed | services/resolution/src/resolution/employer.py:60-94 | The employer of that run is the subject a person row naming it and its profile page gives |
| EmployerCandidates.BeforeIsReached | services/resolution/src/resolution/pipeline.py:151-184 | Two records, a company and a person it employs, lead from empty tables to that state, which satisfies every invariant |
| Keys.BuildPersonKeys | services/resolution/src/resolution/keys.py:124-159 | The loops build exactly the modelled keys, a role mailbox kept but moderate |
| KeyMeaning.PersonKeysAre | services/resolution/src/resolution/keys.py:124-159 | A person has a key of each type exactly when the values say so: the first listing id with its source, every profile that reads, every mailbox and phone, and the first full name, or first and last name, with the first employer name and with the first city |
| Keys.BuildCompanyKeys | services/resolution/src/resolution/keys.py:167-217 | The loops build exactly the modelled keys, demoted for a location source |
| KeyMeaning.CompanyKeysAre | services/resolution/src/resolution/keys.py:162-217 | A company has a key of each type exactly when the values say so: the first listing id with its source, every web site that reads, every mailbox and phone, and the first company name, or legal name, alone and with the first city |
| Keys.Dedupe | services/resolution/src/resolution/keys.py:195-202 | The seen-set loop keeps the first key of each type and value |
| Keys.DedupedKeepsFirst | services/resolution/src/resolution/keys.py:195-202 | No type and value twice, none lost, each survivor the first of its kind |
| Keys.PersonKeyStrengths | services/resolution/src/resolution/keys.py:124-159 | A person's key is strong exactly when its type is, less a role mailbox's email; a listing id carries its source |
| Keys.CompanyKeyStrengths | services/resolution/src/resolution/keys.py:205-243 | From a location source exactly the listing id stays strong, otherwise exactly the strong types; a listing id carries its source |
| Keys.DescribesKeepsBlocking | services/resolution/src/resolution/keys.py:205-217 | What a source catalogues never changes which keys are looked up |
| Keys.KeysForHasDistinctMarkers | services/resolution/src/resolution/pipeline.py:64-64 | The dictionary of built strengths loses no key |
| Scoring.ScoreIgnoresOrderIff | services/resolution/src/resolution/scoring.py:62-89 | The confidence is the same for every ordering of the keys exactly when the top weight is not mixed in strength or the uncapped score stays below the link line |
| Scoring.SameEvidenceLinksOrAsks | services/resolution/src/resolution/scoring.py:62-118 | A shared LinkedIn profile and a shared role mailbox score 0.99 and link when the profile comes first, score 0.89 and go to review when the mailbox does |
| LookupOrder.OrderDecides | services/resolution/src/resolution/repository.py:98-119 | One known person and one row: the lookup links them if it returns the profile's key row first and files a review if it returns the mailbox's first |
| LookupOrder.KnownIsReached | services/resolution/src/resolution/pipeline.py:77-148 | That person's tables are what resolving one record leaves, in whatever order lookups return rows |
| LookupOrder.NewcomersKeysAreBuilt | services/resolution/src/resolution/keys.py:124-159 | The row's keys are what a profile and a mailbox judged a role's give |
| Scoring.MoreEvidenceNeverLowersScore | services/resolution/src/resolution/scoring.py:69-89 | With table strengths, adding keys never lowers a score, repeating key types adds nothing, and no score exceeds 0.99 |
| Scoring.LinkableNeedsStrongKey | services/resolution/src/resolution/scoring.py:79-82 | A score of 0.90 needs a strong key of the top weight, the one the match is recorded under |
| Scoring.DecisionIs | services/resolution/src/resolution/scoring.py:92-118 | A link happens exactly when one candidate alone has the highest score and it is at least 0.90, new exactly when all are below 0.60, review otherwise; the match named is one no other has more confidence than, and none is named exactly when nothing was scored |
| Scoring.DecisionNamesFirst | services/resolution/src/resolution/scoring.py:92-118 | Of several matches with the highest confidence the one named is the first weighed |
| Scoring.ScoreMeans | services/resolution/src/resolution/scoring.py:62-89 | A score is the weight of the first heaviest key, 0.04 more for every other type present, at most 0.89 if that key is not strong and at most 0.99 |
| KeyMeaning.OneSharedKeyDecides | services/resolution/src/resolution/scoring.py:18-118 | What each type of key alone is worth for a person and for a company, and that it links from 0.90, asks from 0.60 and starts a new entity below |
| Scoring.DecisionIgnoresCandidateOrder | services/resolution/src/resolution/scoring.py:92-118 | The kind of decision, and which entity a link names, do not depend on the order candidates come in |
| Survivorship.WinnerIsLeast | services/golden/src/golden/strategies.py:153-170 | Under all four strategies the winner is the least observation in one lexicographic order |
| Survivorship.ChoiceIgnoresOrder | services/golden/src/golden/strategies.py:173-221 | Lists making the same claims, in any order and however often, choose alike: value, strategy, confidence, counts, agreeing sources and alternatives |
| Survivorship.PermutationsChooseAlike | services/golden/src/golden/strategies.py:173-221 | In particular every permutation chooses alike |
| Survivorship.ConfidenceIsBounded | services/golden/src/golden/strategies.py:144-150 | There is a choice exactly when some value is not blank, and its confidence lies in [0.05, 0.99] |
| Survivorship.ChoiceCounts | services/golden/src/golden/strategies.py:184-201 | Supporting counts the sources reporting the winner, competing the distinct values, and the alternatives are every other value once in ascending order |
| Survivorship.DissentCostsOncePerSource | services/golden/src/golden/strategies.py:122-150 | Another value from a new source costs the winner's confidence exactly one penalty, up to the limits, and from a source that already dissented nothing |
| Survivorship.AgreementNeverLowersConfidence | services/golden/src/golden/strategies.py:144-170 | For most reliable and most frequent fields a new source repeating the winner keeps it and never lowers its confidence |
| Survivorship.TimedAgreementLowersConfidenceIff | services/golden/src/golden/strategies.py:144-170 | For fields decided by time it keeps the value, and lowers its confidence exactly when it becomes the deciding report, is less reliable by more than the bonus, and the score was above the floor and ends below the ceiling |
| Survivorship.LaterAgreementCanLowerConfidence | services/golden/src/golden/strategies.py:144-170 | Such a newcomer lowers a stored confidence |
| Survivorship.RepeatsCannotUnseat | services/golden/src/golden/strategies.py:118-161 | Repeats by sources already behind a value cannot unseat a value with strictly the most sources |
| Survivorship.GroupByValue | services/golden/src/golden/strategies.py:106-110 | The dictionary loop builds the groups in order of first appearance |
| GoldenTable.BuildRefinesChoice | services/golden/src/golden/pipeline.py:44-79 | From any table with one current row per field, each reported field with a choice ends showing exactly that choice |
| GoldenTable.BuiltFieldIsRecomputed | services/golden/src/golden/pipeline.py:44-79 | A field with a non-blank report ends showing what `choose` makes of its observations now |
| GoldenTable.UnreportedFieldIsEmpty | services/golden/src/golden/pipeline.py:81-86 | A field nobody reports shows nothing after a build |
| GoldenTable.BuildKeepsOtherEntities | services/golden/src/golden/pipeline.py:34-88 | A build keeps one current row per field and no other entity's trusted values move |
| GoldenMeaning.BuildDoes | services/golden/src/golden/pipeline.py:34-88 | Row by row: a build appends, in order, one row for each choice whose value is not the one shown, saying all the choice says; a shown value chosen again takes the new evidence, one replaced closes and points at the new row of its field, one nobody reports closes, and every other row stays |
| GoldenMeaning.CountsAre | services/golden/src/golden/pipeline.py:44-88 | Written counts those new rows, and refreshed and unchanged the choices already shown on other and on the same evidence |
| GoldenMeaning.RetiredAre | services/golden/src/golden/pipeline.py:81-86 | Retired counts the entity's current rows whose field nobody reports |
| GoldenTable.SecondBuildChangesNothing | services/golden/src/golden/pipeline.py:53-86 | A second build leaves the table identical and counts nothing written, refreshed or retired |
| GoldenTable.NothingCountedIffUpToDate | services/golden/src/golden/pipeline.py:46-86 | The counters are all zero exactly when the table already says what the observations say |
| GoldenHistory.HistoryIsAppendOnly | services/golden/src/golden/repository.py:123-202 | Over any run of builds rows are only appended, never change what they say, closed rows never reopen, and one row per field is current |
| GoldenHistory.EveryValueIsAccountedFor | services/golden/src/golden/repository.py:166-202 | From any row ever written, following replacements stays in its entity and field, only moves forward, and ends at the current or a retired row |
| GoldenHistory.ChainsGrow | services/golden/src/golden/repository.py:166-174 | A chain followed later passes through the place it ended at before |
| GoldenBuilder.GoldenAttributes.BuildEntity | services/golden/src/golden/pipeline.py:34-88 | The loop of closes, inserts, links and refreshes takes the table to the modelled build, and its four counters count what it did |
| GoldenBuilder.GoldenAttributes.BuildField | services/golden/src/golden/pipeline.py:53-79 | One field is refreshed in place, left, or closed, replaced and linked |
| GoldenBuilder.GoldenAttributes.InsertValue | services/golden/src/golden/repository.py:177-197 | The unique index refuses a second current row and the table is then unchanged |
| GoldenBuilder.ProgramBuilds | services/golden/src/golden/pipeline.py:44-86 | The statements decided from one read make exactly one build if nobody writes in between: no insert refused, no close of a closed row |
| ConcurrentBuilders.LockedBuildersAreSerial | services/golden/src/golden/repository.py:86-106 | Any number of locking builders in any interleaving, with observations changing in between: never two current rows, never a refused insert or a stale close, and the table is the serial result in lock order |
| ConcurrentBuilders.UnlockedBuildersCollide | tools/concurrency_check.py:84-101 | Without the lock, for every table and every value to replace, two builders reach a close of a closed row and a refused insert |
| Quarantine.LogTellsTheStatus | services/validation/src/validation/quarantine.py:40-124 | Over any verdicts and reviews the item's status is where its event log ends, the log has no gaps, and only a person releases, rejects or undoes a rejection |
| Quarantine.InvalidVerdictIsHeld | services/validation/src/validation/quarantine.py:52-97 | Right after an invalid verdict the record is open or released with exactly those reasons, or rejected |
| Quarantine.VerdictDecides | services/validation/src/validation/quarantine.py:64-97 | A verdict never moves a rejection, a pass resolves anything else, and a failure keeps a release exactly when its reasons are the released ones and otherwise leaves the item open with its own |
| Quarantine.EventIffChange | services/validation/src/validation/repository.py:179-208 | The log gains exactly one event exactly when the item changes, and the event names the item's new status and reasons |
| Quarantine.SameVerdictTwiceIsSilent | services/validation/src/validation/quarantine.py:79-97 | The same verdict again changes nothing and logs nothing |
| Quarantine.VisibleIff | db/migrations/0005_quarantine.sql:72-84 | In every reachable state an invalid record is resolvable exactly when released, a rejected one never, and an open one exactly when its verdict passes |
| Quarantine.ReopenedRecordIsStillVisible | db/migrations/0005_quarantine.sql:72-84 | A record that failed, passed and was reopened is open and resolvable |
| Quarantine.OpenWhilePassingWasReopened | services/validation/src/validation/quarantine.py:110-113 | Only a person's reopening can leave an open item on a passing record |
| Quarantine.QuarantineTables.Validate | services/validation/src/validation/repository.py:181-208 | Verdict, item and event are written together and no other record changes |
| Quarantine.QuarantineTables.Decide | services/validation/src/validation/repository.py:228-262 | Release is done exactly on an open or rejected item and leaves it released, Reject exactly on an open or released one and leaves it rejected, Reopen exactly on one not open and leaves it open; the reasons are kept, one event names the action, the actor, both statuses and the reasons, and no other record changes; anything else is refused and changes nothing |
| Quarantine.ReviewDoes | services/validation/src/validation/quarantine.py:100-124 | In every reachable case each action does just that, and after it a judged record is resolvable if released, not if rejected, and if reopened exactly when its verdict is not invalid |
| Quarantine.VerdictIsLogged | services/validation/src/validation/quarantine.py:52-97 | The event a verdict leaves names the old status, the system, the verdict's sorted reasons unless it passed, and the action: quarantined, resolved, reopened or reasons changed |
| Validation.ValidateRecord | services/validation/src/validation/pipeline.py:92-167 | The loops compute the modelled verdict: status, rows, counters and sorted rule lists |
| Validation.Summarize | services/validation/src/validation/record_rules.py:45-55 | One pass computes the present fields and the three counts |
| Validation.InvalidIffUnidentified | services/validation/src/validation/pipeline.py:52-79 | For any attribute rules a record is invalid exactly when no identifying field, nor for a person both name parts, has a value |
| Validation.ValidIffClean | services/validation/src/validation/pipeline.py:52-79 | A record is valid exactly when it is identified, no attribute rule that counts failed, its core fields are present and at least half its attributes are confirmed |
| VerdictMeaning.StatusMeans | services/validation/src/validation/required_fields.py:1-57 | The same two over the row's observations, with every identifying and core field written out for each type |
| VerdictMeaning.RecordRowsSay | services/validation/src/validation/record_rules.py:45-124 | The rows about the record itself: which five rules, how severe each is, and exactly when each fails |
| VerdictMeaning.ListsNameFailures | services/validation/src/validation/pipeline.py:105-167 | The error and failed rule lists name exactly the rules that failed as an error, or as an error or a warning, once each in order; validated counts the confirmed observations some rule judged |
| Validation.MoreObservationsNeverInvalidate | services/validation/src/validation/record_rules.py:68-93 | Adding observations never turns a record invalid |
| Validation.CountsReconcile | services/validation/src/validation/pipeline.py:92-167 | Validated plus unvalidated is the number of observations, the error and warning counts are those of the rows, and the rule lists are empty exactly when the counts are zero |
| Validation.VerdictIgnoresOrder | services/validation/src/validation/pipeline.py:105-167 | Status, counts and rule lists do not depend on the order of the observations, and the result rows are the same up to order |
| Validation.PassesOnEmployersIdentityIff | services/validation/src/validation/record_rules.py:45-93 | A row with nothing of its own to identify it passes exactly when its employer's values supply an identifying field or complete the name |
| Validation.EmployersPageIsEnough | services/validation/src/validation/record_rules.py:68-93 | A person row holding only its employer's LinkedIn page passes |
| Normalization.ObservationsForRecord | services/normalization/src/normalization/pipeline.py:51-90 | The nested loops produce exactly the modelled observations in order |
| Normalization.EveryColumnIsObserved | services/normalization/src/normalization/pipeline.py:51-90 | Exactly the row's columns leave observations, no two share a column and index, none is blank, and only confirmed mappings name a field or a subject |
| RowMeaning.RowIsObserved | services/normalization/src/normalization/pipeline.py:51-90 | An observation is a row's exactly when it is of one of its cells: a part of its text at its own index, read by the kind of value its field and subject call for, or the one that says nothing where the cell has none |
| Mapping.AcceptedIff | services/mapping/src/mapping/engine.py:149-232 | A column is accepted without a person exactly when an exact alias names it or a similar name is convincing, never on values alone and never as an ambiguous alias |
| MappingMeaning.MapColumnIs | services/mapping/src/mapping/engine.py:149-237 | A column claims the first of its most confident proposals: accepted from 0.90, to a person from 0.60, no claim below, and an ambiguous alias always to a person |
| MappingMeaning.ProposalsAre | services/mapping/src/mapping/engine.py:149-206 | Its proposals are the aliases, the similar names, what its values alone can mean by the narrowest detector that may say so of the record itself, and every name not an alias that values agree with, raised by 0.15 to at most 0.95, in that order |
| Mapping.SimilarNameNeedsNoValues | services/mapping/src/mapping/engine.py:181-200 | A similarity of 0.90 is accepted without any values, even over an ambiguous alias |
| Mapping.Best | services/mapping/src/mapping/engine.py:208-209 | The proposal in front after sorting has the highest confidence |
| Collisions.ResolveCollisions | services/mapping/src/mapping/engine.py:247-311 | Mutating the mapping objects in place leaves exactly the settled claims, in the same order |
| Collisions.SettleAt | services/mapping/src/mapping/engine.py:281-311 | Only the mapping at that position changes, even when another looks identical |
| Collisions.MapColumns | services/mapping/src/mapping/engine.py:314-320 | Each column is mapped on its own and then the collisions are settled |
| Collisions.GroupBySlot | services/mapping/src/mapping/engine.py:264-269 | Claimants are grouped by field and subject in column order, none missed |
| Collisions.SettledIs | services/mapping/src/mapping/engine.py:271-311 | A claim loses its field exactly when another has better evidence, goes to a person when another has evidence as good, and otherwise keeps field, evidence, status and subject |
| MappingMeaning.CollisionTells | services/mapping/src/mapping/engine.py:247-311 | A column without a rival is untouched; one with rivals notes all of them in column order and whether it lost and to which, was contested, or held the field and against which |
| MappingMeaning.BeatsIff | services/mapping/src/mapping/engine.py:240-246 | An exact alias beats all else, name and values together beat either, an ambiguous alias and a similar name are equal and beat values |
| Collisions.ColumnsKeepTheirFieldUnlessOutranked | services/mapping/src/mapping/engine.py:271-311 | Count, order and columns are kept, and a field is given up exactly when it was outranked |
| Collisions.AtMostOneIsAccepted | services/mapping/src/mapping/engine.py:247-311 | Columns left with one field and subject share the top evidence rank and none of them is accepted, so at most one column per field and subject ever is |
| Collisions.SoleBestIsUntouched | services/mapping/src/mapping/engine.py:293-299 | Strictly the best claimant keeps its field, evidence, status and subject |
| Collisions.SettlingAgainChangesNothing | services/mapping/src/mapping/engine.py:247-311 | Settling again changes no field, evidence, status or subject |
| Readers.Regroup | services/ingestion/src/ingestion/readers.py:162-176 | However the reader frames the file, the batches are the non-blank rows cut to size |
| Readers.ReadFile | services/ingestion/src/ingestion/readers.py:195-209 | A batch size below one is refused; otherwise the batches are the file's non-blank rows in order, full but for the last |
| Readers.KeptAre | services/ingestion/src/ingestion/readers.py:162-176 | Every row that is not blank is kept, as often as it is there and in order, and no other |
| Readers.Slice | services/ingestion/src/ingestion/readers.py:190-192 | A workbook's rows are cut into the same batches |
| Readers.ChopIsRegular | services/ingestion/src/ingestion/readers.py:162-176 | Those batches concatenate to the rows, and all but the last have exactly the size asked for |
| Readers.OnlyOneWay | services/ingestion/src/ingestion/readers.py:139-141 | No other list of batches does that |
| Readers.Ingest | services/ingestion/src/ingestion/pipeline.py:39-50 | The staged loop stores every row with its id and number, or stops at the first batch without the id column having stored the batches before it |
| Readers.NumberRows | services/pipeline/src/record_pipeline/runner.py:199-202 | The record-at-a-time loop numbers the rows one by one, whatever was read ahead |
| Readers.StoredRowIs | services/pipeline/src/record_pipeline/runner.py:70-73 | The i-th row is stored as it is under number i + 1, its id what its id column says, or that number in decimal digits where it says nothing |
| Readers.LoadsAgreeIff | services/ingestion/src/ingestion/pipeline.py:116-133 | No batch is refused, for any batch size, exactly when the id column exists, or none was named, or there are no rows |
| Readers.BothLoads | services/pipeline/src/record_pipeline/runner.py:70-73 | Where the staged load does not refuse, both loads produce the same ids, numbers and rows for every framing, batch size and read-ahead |
| Load.EveryRowIsAccountedFor | services/pipeline/src/record_pipeline/runner.py:199-277 | After any load and replays each row number from 1 to rows_read is stored once or open, and rows_read is ingested plus skipped |
| Load.ReconcilesIffNoEarlyReplay | services/ingestion/src/ingestion/repository.py:194-206 | The batch counters equal stored rows and open errors exactly when no replay succeeded before the batch finished; each early one leaves them one off |
| Load.ReplaysOfACompletedBatchReconcile | services/ingestion/src/ingestion/repository.py:262-283 | After load and finish every counter stays exact through any later replays |
| Load.EarlyReplayIsForgotten | services/ingestion/src/ingestion/repository.py:194-206 | A row replayed during the load is stored while the finished batch counts it as skipped |
| Load.TallyAddsUp | services/pipeline/src/record_pipeline/runner.py:56-67 | Processed is invalid plus linked plus review plus new entities, and quarantined is invalid |
| Load.TallyCounts | services/pipeline/src/record_pipeline/runner.py:56-67 | While a batch loads, each counter is the number of its rows that ended so: linked, sent to review, new with or without keys, invalid, quarantined, failed |
| FailingRows.FailuresCostOnlyTheirRows | services/pipeline/src/record_pipeline/runner.py:199-264 | Whatever rows the screen refuses and at whatever statement others raise, the load leaves the records of exactly the rows that went through and the same facts as loading those rows stage by stage; and the same golden values exactly when what entities were built as makes no difference, in particular where active entities hold keys of their own type only |
| FailingRows.AfterIsFused | services/pipeline/src/record_pipeline/runner.py:199-264 | The tables after a load with failing rows are those of a fused run over the rows that went through, with or without building golden values |
| FailingRows.Runner.Row | services/pipeline/src/record_pipeline/runner.py:199-264 | One turn: a row that goes through is processed, counted and announced; one that fails leaves the tables as they were and one open error, or under fail-fast nothing at all |
| FailingRows.Runner.Drive | services/pipeline/src/record_pipeline/runner.py:160-277 | The loop leaves exactly those tables, that batch and those announcements; an empty source is refused unchanged, and fail-fast stops at exactly the first failing row |
| FailingRows.BatchTellsThemApart | services/pipeline/src/record_pipeline/runner.py:199-264 | The numbers of the rows that went through are the stored ones, those of the others are the open errors, and the tallies are their sizes |
| FailingRows.ThroughIffNothingFails | services/pipeline/src/record_pipeline/runner.py:206-242 | A row goes through exactly when the screen passes it and no statement it sends raises |
| FailingRows.KeptAreAnnounced | services/pipeline/src/record_pipeline/runner.py:244-259 | Exactly the rows that went through are announced, once each, in their order |
| OutcomeMeaning.AnnouncedUnderItsEntity | services/pipeline/src/record_pipeline/runner.py:244-259 | A row that went through is announced once with its outcome, under the entity its record is then linked to or, held back, under the record |
| FailingRows.HalfWrittenIsUnjudged | services/pipeline/src/record_pipeline/runner.py:224-230 | Without the rollback a row failing after its observations would leave a record with neither verdict nor quarantine case |
| Replays.Reprocess | services/pipeline/src/record_pipeline/runner.py:288-370 | The batch's open errors are listed in row order up to the limit; each row goes through the statements of `process` again, unscreened, and is rolled back if one raises; tables and batch are exactly those of the rows that went through; each attempt is counted, as skipped exactly where no exact copy was kept, as succeeded where the row went through, else as still failing; without a stored layout nothing is attempted |
| Replays.ReplaysFinishTheLoad | services/pipeline/src/record_pipeline/runner.py:288-370 | A load with failing rows and then replays of them, failing again or not, leaves the fused run over the rows that went through in the order they did, where those replayed resolve as in the load: the same facts stage by stage, and the same golden values exactly when what entities were built as makes no difference |
| Replays.PlansAlikeIff | services/pipeline/src/record_pipeline/runner.py:375-413 | A replayed row resolves as the same subjects as in its load exactly when nobody is resolved for it, or it is not a company's from a source of premises, or it gives no web site and no mailbox |
| Replays.ReplayStrengthensAListing | services/resolution/src/resolution/keys.py:205-243 | The web site of a listing is a moderate key in the load and a strong one on a replay |
| Replays.ReplayedBatchReconciles | services/ingestion/src/ingestion/repository.py:194-283 | A batch loaded, finished and replayed has exact counters, and open is exactly what the load left open less the listed rows that went through |
| Replays.LoadedBatchCountsTheKept | services/ingestion/src/ingestion/repository.py:194-206 | The finished batch counts as ingested exactly the rows that went through and as skipped the others |
| Load.ListedAreOpen | services/pipeline/src/record_pipeline/repository.py:137-168 | The list holds open rows only, in ascending order, no more than the limit, and every one of them when the limit allows |

## Left out

- Postgres, Kafka, the HTTP services, metrics, command lines, Excel and polars internals: I/O. A transaction is modelled as a step, except that of `process`, whose statements are; files arrive as frames of rows.
- Crash windows: `process` commits before its error row is marked reprocessed, so replays are modelled at quiescent points.
- Wall-clock order of validity windows under interleaving: `now()` is the start of a transaction, so golden rows are ordered by insertion, and the check that a window does not end before it starts is not modelled.
- PathsAgree.PathsMeet: asks that active entities hold keys of their own type only, because without it golden values can differ (MisfiledKeys); PathsMeetIff does not ask it. Both are about one batch of rows with at least one column in which no row raises; FailingRows is about those that do. New ids and the observation time are inputs, the same on both paths; the order lookups return key rows in is any function of the table and the rows found, the same on both, and text compares by code point.
- FailingRows.FailuresCostOnlyTheirRows: a statement that raises leaves nothing of its own; resolving one subject and building one entity count as one statement each. A row the database refuses ends a staged ingest, so the staged side is over the rows that went through.
- MisfiledKeys.AgreeOnEveryBatchIff: says nothing of tables with a moderate key of another type, or one other entities share: whether a row is ever linked by it then depends on scores, ties and the order lookups return rows in. The year of foundation is approved for a column by hand, as services/mapping/src/mapping/review.py:80-84 allows for either type.
- Scoring.MoreEvidenceNeverLowersScore: needs keys of table strength, because a demoted key of the top weight caps the whole candidate.
- Scoring.DecisionIgnoresCandidateOrder: which of several equal candidates a review names does depend on it (DecisionNamesFirst); which rows a lookup returns first is up to the database.
- Replays.Reprocess: one batch at a time; the listing across batches, which share one limit, is not modelled. A layout no longer stored is a flag.
- The flush sizes of the normalize and validate loops, and who reads the announced events.
- Mapping.AcceptedIff: aliases, similarity ratios, detectors and their scores are inputs with the ranges the code gives them; the alternatives kept as evidence are not modelled.
- Relationship rows, evidence documents, raw values and winning record ids of golden rows: written beside what is modelled and read by none of it.
- Reblocking merges, whose groups can overlap; the forest is proved for accepted candidates, which resolve both sides first.
- Making column names unique, URL and name normalization, the attribute rules and the employer name's folding: string functions, taken as arbitrary.
- Two judgements of one rule on one observation share a row in the results table; the model keeps the rows as written.
- Stored quarantine reasons are compared as sorted sets; every list the system writes is already sorted without repeats.
