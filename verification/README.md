# Verification of the job-application agent

A model in Dafny of the deterministic engines of the agent, and proofs of what
they guarantee over every input, every run and every reachable state. Check it
with `dafny verify dfyconfig.toml`.

Code that computes by expressions is modelled by functions; code that changes
state step by step is modelled by methods and classes, each proved against a
specification function, whose own properties are then proved as lemmas. The
parts, each with its modules:

- **Work experience** (`Experience`): employment periods are sorted and merged
  inside the array that is being read, and their whole calendar months added up.
- **Resume router** (`RoleEvidence`, `ResumeScoring`, `ResumeRouting`,
  `RoutingTheorems`, `RoutingHistory`, `RouterVocabulary`, `RoutingWitness`,
  `ScoringWitness`): scores are
  ranked by raw fit but compared by fit, so it is not obvious that search history never
  changes who wins. It does not.
- **Application attempts** (`ApplicationAttempt`, `AttemptStore`,
  `AttemptExecutor`, `DispatchProtocol`): the life cycle of one attempt, the
  stored file, and at-most-once dispatch over many workers with crashes.
- **Batch run** (`BatchRun`, `BatchDispatch`): the loop over vacancies with its limits,
  counters and accounting, and live runs over one store, one after another.
- **Cookies** (`NetscapeFile`, `NetscapeTheorems`, `CookieJar`, `JarTheorems`): a
  printer and a parser, exactly which cookies they keep, and when a jar stays in step
  with its file over requests, responses and restarts. Path match is section 5.1.4,
  domain match section 5.1.3 and storage section 5.3 of RFC 6265.
- **Semantic parity** (`CandidateParity`, `ReferenceParity`, `ParityTheorems`, `CandidateSchema`):
  what it means that two candidate documents compare as equivalent.
- **Skills** (`SkillAssembly`, `SkillProjection`): grouping, conflict detection,
  and exactly what an employer may see.
- **Profile merges** (`FactMerge`, `CandidateProfile`): what merging keeps, and
  when merging twice is merging once.
- **Search planning and discovery** (`SearchMerge`, `SearchPlanner`, `PlanFairness`, `Discovery`).
- **Auto-chat attempts** (`AutoChatAttempt`) and the **attention queue**
  (`AttentionQueue`).

`Results`, `Sequences`, `Ordering`, `KeySets` and `Text` hold what several parts
share.

## What the proofs show that the code does not promise, or promises otherwise

- The planner's comment promises resume fairness (`internal/careeragent/model.go:269-271`).
  The pass stops at a family that an earlier resume covered, so a resume may get no
  query, and since the later rounds start at the second query of a source, its first
  query can be missing from the plan at every limit (`PlanFairness.QueryCanBeLost`,
  `PlanFairness.ExampleIsLost`). It is searched on behalf of the resume exactly if one of
  the two passes takes it or the resume asks for it once more (`PlanFairness.FirstQueryServed`).
- Search history cannot change which resume wins, but it can decide whether one
  wins at all: by lifting a weaker resume past a closer rival it turns a review into
  a choice with a rival five points behind (`RoutingWitness.ChoiceWithFivePoints`).
  `RoutingTheorems.SelectedUnderEveryHistory` and `RoutingHistory.SomeHistorySelects` say
  exactly when every history selects and when some history selects.
- Level conflicts are compared with the rank of the first trusted assertion only
  (`internal/candidate/assembly.go:647-664`); conflicts within another rank are
  missed (`SkillAssembly.LevelConflictMeaning`).
- User-confirmed education can be replaced by a resume when another confirmed entry
  stands before it (`CandidateProfile.UserEducationSurvives`).
- Languages and projects without a name are added again with every merge
  (`CandidateProfile.MergeProfileTwice`).
- Confirming evidence may arrive between reserving and sending, and the
  application is then still sent (`DispatchProtocol.ClosedIsNeverSentAgain`).
- The jar may write a file it cannot read back. It stores cookies of any configured host
  and of any length and takes a missing path from the decoded request path, which may hold
  a tab or a line feed, while the reader accepts hh.ru hosts only, splits rows at these
  characters, and fails at a line of 65,536 bytes. The file gives a cookie back exactly if
  its host is under hh.ru, its path has neither character, and its row is shorter
  (`NetscapeTheorems.ReadsRight`, `JarTheorems.InStepIffReadable`,
  `JarTheorems.StepCanBeLost`). The reader reports every other file as bad, with one
  exception: a path whose first line has exactly four tabs makes that line a row of its
  own, and the file can load as another cookie (`NetscapeTheorems.ReadAsAnother`,
  `JarTheorems.WrongCookieLoaded`).
- A cookie without a path attribute need not go back to the request that set it: its path
  comes from the decoded path of the request, and is matched against the escaped one
  (`CookieJar.SentBack`, `JarTheorems.SetterCanBeForgotten`).
- An empty entry in a list of references, or an entity without an id, is compared by its
  position, so the order of such a list matters (`ReferenceParity.ReferencesAgree`,
  `ReferenceParity.EmptyReferenceIsPositional`), and it disappears behind an entry that has
  its position for a name or an id (`ParityTheorems.ListsAgree`, `ParityTheorems.ClashHidesEntity`).
- A positive Max-Age is ignored, and cookies are sent in the order of the jar, not in that
  of section 5.4 of RFC 6265 (`CookieJar.MaxAgeIgnored`, `CookieJar.SentInJarOrder`).
- A blank but non-empty id in confirming evidence replaces a known one
  (`ApplicationAttempt.ConfirmedIdsKept`).
- Exact evidence without a message id confirms a reply whose message id is unknown
  (`AutoChatAttempt.UnnamedExactEvidenceConfirms`).

## Model

| member | source | states |
|---|---|---|
| `Experience.FullMonthsIsLargest` | internal/runtime/candidate_facts.go:269-278 | the whole months from start to end are the largest k for which the start date moved k months on is not after the end |
| `Experience.FullMonthsSuperadditive` | internal/runtime/candidate_facts.go:269-278 | the whole months of two stretches that follow each other never exceed those of a period that holds both |
| `Experience.ComponentsExact` | internal/runtime/candidate_facts.go:235-247 | merging leaves a list with strict gaps that covers exactly the time the input covers |
| `Experience.CoverDeterminesComponents` | internal/runtime/candidate_facts.go:235-247 | a list with strict gaps is determined by the time it covers |
| `Experience.MoreCoverMoreMonths` | internal/runtime/candidate_facts.go:235-252 | of two merged lists the one that covers more time never adds up to fewer months |
| `Experience.ExtendExact` | internal/runtime/candidate_facts.go:237-247 | one step of the merge loop keeps strict gaps and adds exactly the time of the next period |
| `Experience.SortByStart` | internal/runtime/candidate_facts.go:235-235 | sorting in place permutes the periods into order of their starts |
| `Experience.MergeInPlace` | internal/runtime/candidate_facts.go:236-247 | the loop that reuses the front of the array it reads ends with the merged periods there and every slot behind them untouched, so nothing unread is overwritten |
| `Experience.MergeNext` | internal/runtime/candidate_facts.go:238-246 | one turn of that loop extends the last merged period or appends the next one, at the front of the array |
| `Experience.TotalExperienceMonths` | internal/runtime/candidate_facts.go:207-253 | the total is known exactly when every entry has a readable start, a readable end and start <= end <= today; it is then the sum of the whole months of the merged periods, otherwise 0 |
| `Experience.KnownExactly` | internal/runtime/candidate_facts.go:207-233 | an unreadable start or end, an end before its start and a date after today make the total unknown, and nothing else does |
| `Experience.ComponentsForgetOrder` | internal/runtime/candidate_facts.go:235-247 | the merged periods are the same for every order and repetition of the input |
| `Experience.MergedDays` | internal/runtime/candidate_facts.go:235-247 | a day lies in a merged period exactly when it lies in an input period |
| `Experience.MoreEntriesMoreMonths` | internal/runtime/candidate_facts.go:207-253 | adding entries, in whatever order, never lowers the total |
| `Experience.TotalWithinSpan` | internal/runtime/candidate_facts.go:207-253 | the total is at least that of every single entry and at most the whole months from the earliest start to the latest end |
| `RoleEvidence.ContainsCanonicalPhrase` | internal/careeragent/model.go:1218-1237 | the window search finds a phrase exactly when it is not empty and occurs as consecutive tokens |
| `RoleEvidence.GatherEvidence` | internal/careeragent/router_role_family.go:146-174 | the evidence of one rule: its anchors, explicit, specific and generic signals found in the vacancy, and the strength they amount to |
| `RoleEvidence.RolesReadAsTitle` | internal/careeragent/router_role_family.go:136-145 | professional roles are read as part of the title |
| `RoleEvidence.StrengthMeans` | internal/careeragent/router_role_family.go:146-181 | a family shows for certain by an anchor in the title, two different role words there, or one with a specific word anywhere; it shows at all by an anchor or a role word in the title or by two different specific words |
| `RoleEvidence.KeepUndisplaced` | internal/careeragent/router_role_family.go:182-189 | the filter that writes over the slice it reads leaves at its front, in order, exactly the families that are not strong web-backend evidence, and every slot behind them as it was |
| `RoleEvidence.KeepNotWeb` | internal/careeragent/router_role_family.go:190-196 | so does the filter of strong families, which drops exactly the web-backend family |
| `RoleEvidence.DisplacementAgrees` | internal/careeragent/router_role_family.go:182-197 | filtering families and filtering strong families drop the same ones |
| `RoleEvidence.ClassifyVacancyRole` | internal/careeragent/router_role_family.go:136-200 | the classification loop computes the families with evidence, the strong ones, and the signals, from the texts alone |
| `RoleEvidence.EvidenceExactly` | internal/careeragent/router_role_family.go:136-200 | the evidence is that of every rule that finds any, except that Python shown for certain displaces web back end shown for certain; the strong families are those shown for certain that are not displaced |
| `ResumeScoring.TallyMeaning` | internal/careeragent/model.go:1058-1073 | the role score is 24 for each strong family the resume supports; matched families are exactly the supported ones with evidence, mismatches exactly the unsupported strong ones, and strong evidence forces a score of 24 |
| `ResumeScoring.CountTokens` | internal/careeragent/model.go:1074-1084 | a loop over a token set counts the tokens with a property, whatever the order of iteration |
| `ResumeScoring.StoredIdentityUsed` | internal/careeragent/model.go:1040-1044 | a stored identity is used if it names a primary family and any role, skill or domain, and otherwise the one that the texts give |
| `ResumeScoring.TallyRoleEvidence` | internal/careeragent/model.go:1058-1073 | the loop over role evidence computes its specification |
| `ResumeScoring.TallySkillMatches` | internal/careeragent/model.go:1086-1126 | the loop over skills counts every token set once: score, matches and generic evidence are the sum, the lists and the count over the first skill of each distinct non-empty token set |
| `ResumeScoring.SkillMatchMeans` | internal/careeragent/model.go:1186-1216 | what a skill counts for: nothing or a generic word if it shares no specific word, everything if the vacancy names it, much if it has two specific words or more and shares half of them, else one |
| `ResumeScoring.FirstSkillsMeaning` | internal/careeragent/model.go:1088-1093 | exactly one skill stands for each non-empty token set that occurs |
| `ResumeScoring.SkillTallyMeaning` | internal/careeragent/model.go:1086-1126 | the skill score is the sum of the points (20, 12, 7 in the structured fields; 5, 4, 2 in the description) of the first skills of distinct token sets, and the match lists and the generic count are those of the same skills |
| `ResumeScoring.FindProvenance` | internal/careeragent/model.go:1134-1140 | the bonus is 5 when a search profile of this resume found the vacancy, and 0 otherwise |
| `ResumeScoring.ScoreResume` | internal/careeragent/model.go:1040-1184 | the scoring method computes the score function: fit without provenance, raw fit with it |
| `ResumeScoring.ScoreAddsUp` | internal/careeragent/model.go:1131-1184 | the recorded parts of a score add up to its fit, the raw fit adds the bonus, the generic share is that of the counted evidence, and the blockers are the keywords that the vacancy contains |
| `ResumeScoring.PartsRecorded` | internal/careeragent/model.go:1040-1149 | which part is which: 24 for each supported strong family, 12 and 2 for specific role words and generic words that the title shares, the skill points, 8 for each domain word and for the level, up to five for generic evidence, 5 for the searches |
| `ResumeScoring.NormalizeNearest` | internal/careeragent/model.go:1262-1269 | the score is the whole number nearest to 100 times the raw fit over itself plus 60 |
| `ResumeScoring.StrongEvidenceClearsFloor` | internal/careeragent/model.go:1058-1073 | strong role evidence forces a raw fit of at least 24, so a floor below that never decides |
| `ResumeScoring.NormalizeMonotone` | internal/careeragent/model.go:1262-1269 | normalising is monotone in the raw fit and never exceeds 100 |
| `ResumeScoring.ProvenanceOnlyAdds` | internal/careeragent/model.go:1133-1150 | between two search histories a score differs in the raw fit, the bonus (0 or 5) and the normalised score only; raw fit is fit plus bonus |
| `ResumeScoring.RoleWordWorth` | internal/careeragent/model.go:1074-1149 | one more word of the desired role moves fit and raw fit by 12 if it is a specific role word of the vacancy title, by 2 if a generic one, plus 1 while fewer than five generic ones are counted, and else by nothing |
| `ResumeScoring.TitleWordWorth` | internal/careeragent/model.go:1074-1149 | one more word of the title moves them by its worth there, and by 8 more if it is a domain word of the structured fields that the resume had not shown |
| `ResumeScoring.LevelWorth` | internal/careeragent/model.go:1251-1260 | a level of experience moves them by 8 exactly if it shares a level word with the vacancy |
| `ResumeRouting.BetterIsStrict` | internal/careeragent/model.go:622-630 | the ranking is a strict order by raw fit and then resume id |
| `ResumeRouting.CollectSupported` | internal/careeragent/router_role_family.go:342-350 | the strong families that some enabled resume supports, in order |
| `ResumeRouting.IdentityUsed` | internal/careeragent/router_role_family.go:411-417 | the router uses a stored identity that names a primary family, and otherwise the one that the texts give |
| `ResumeRouting.SupportedExactly` | internal/careeragent/router_role_family.go:342-350 | the supported families are, once each, exactly the strong ones that some enabled resume has |
| `ResumeRouting.CollectRequirements` | internal/careeragent/model.go:1298-1323 | each requirement with a new token set is met exactly when it is no education requirement and shares a token with the skills of the selected resume |
| `ResumeRouting.RequirementsExactly` | internal/careeragent/model.go:1298-1323 | the states are exactly those of requirements that are not blank and have new words: met if the requirement is not about education and the skills share a word with it |
| `ResumeRouting.RecordMargins` | internal/careeragent/router_role_family.go:325-333 | for candidates in rank order the recorded top is the greatest raw fit, the second the greatest of the others, the margin their non-negative difference, and the relative margin that fraction of the top, between 0 and 1 |
| `RoutingTheorems.RouteMargins` | internal/careeragent/router_role_family.go:294-333 | in every decision, whatever it decides, the recorded scores and margins are those of the compatible candidates: greatest raw fit, greatest of the rest, difference and fraction; zeros without a compatible candidate |
| `RoutingTheorems.AlternativesInOrder` | internal/careeragent/model.go:622-630 | the alternatives are the scores of all enabled resumes, by raw fit, then by score, then by id |
| `ResumeRouting.FinalizeRouteDecision` | internal/careeragent/router_role_family.go:294-409 | the method with its filters and step-by-step assignments computes the decision function, in every branch |
| `ResumeRouting.RouteResume` | internal/careeragent/model.go:614-632 | scoring all enabled resumes, ranking and deciding is the routing function |
| `ResumeRouting.ReasonMeans` | internal/careeragent/router_role_family.go:294-376 | no resume is enabled, all are blocked, the vacancy shows no family for certain, nobody has one of those it shows, or somebody has two, in the one family nobody qualifies: what each reason against a selection says about vacancy and resumes |
| `ResumeRouting.SelectionSays` | internal/careeragent/router_role_family.go:394-409 | a selection names an unblocked candidate and is sure of itself exactly if its score is at least 60 and every requirement is met; without one no resume is named |
| `ResumeRouting.ReviewSays` | internal/careeragent/router_role_family.go:294-333 | without a selection the score is that of the best unblocked candidate, and blockers are reported only if all candidates are blocked |
| `RoutingTheorems.FloorIsRedundant` | internal/careeragent/router_role_family.go:364-371 | whether a resume qualifies does not depend on search history: the raw-fit floor never decides |
| `RoutingTheorems.RivalRanksBelow` | internal/careeragent/router_role_family.go:346-393 | a suitable rival of the winner fits at most 5 points better than the runner-up in rank |
| `RoutingTheorems.SelectedShape` | internal/careeragent/router_role_family.go:294-409 | a resume is selected exactly when one strong family is supported, somebody qualifies, and the first leads the second by 10 points and 12 percent; with somebody qualified the only other result is review for ambiguity |
| `RoutingTheorems.SelectedMargins` | internal/careeragent/router_role_family.go:364-393 | a selected resume leads the runner-up by 10 points and 12 percent of fit, and every other suitable resume by at least 5 points |
| `RoutingTheorems.ProvenanceNeverChangesWinner` | internal/careeragent/router_role_family.go:364-393 | for the same vacancy and resumes, any two search histories that select anything select the same resume; otherwise the result is review for ambiguity |
| `RoutingTheorems.UnsearchedWinnerDominates` | internal/careeragent/router_role_family.go:364-393 | without search history the winner clears every suitable rival by the full margins |
| `RoutingTheorems.DominatorRanksFirst` | internal/careeragent/router_role_family.go:364-393 | a resume that clears every rival ranks first under every search history |
| `RoutingTheorems.SelectedUnderEveryHistory` | internal/careeragent/router_role_family.go:364-393 | a selection is made under every search history if and only if it is made without any, and if and only if one strong family is supported and some suitable resume clears every suitable rival by 10 points and 12 percent; it is then always the same resume |
| `RoutingHistory.SomeHistorySelects` | internal/careeragent/router_role_family.go:342-393 | with proper ids some search history selects a given resume if and only if one strong family is supported, the resume is suitable, and either no other is, or a rival that it clears outranks with five more points every rival that it does not clear |
| `RoutingTheorems.HistoryCanDecide` | internal/careeragent/router_role_family.go:364-393 | the five points are tight: search history can lift a weaker resume past a closer rival, so that a choice left to review without that history is made |
| `RoutingWitness.ExampleFits` | internal/careeragent/router_role_family.go:62-128 | in the nine rules and token sets of the program the vacancy "Flutter engineer" shows the Flutter family alone, and kafka, nginx and cloud are specific skills |
| `RoutingWitness.ExampleScore` | internal/careeragent/model.go:1040-1184 | the fit of a resume titled "Flutter" is 24 for its family plus the points of its skills, and the resume is suitable |
| `RoutingWitness.FlutterFamilies` | internal/careeragent/router_role_family.go:62-200 | in the program's nine rules every text that names Flutter first and else has only words that no other rule knows shows the Flutter family alone |
| `ScoringWitness.SpecialistFits` | internal/careeragent/model.go:1040-1184 | for a post of four words of different kinds the resume with its domain word in the title, its level and its skill fits with 72 points: 24, 20, 12, 8 and 8 |
| `ScoringWitness.GeneralistFits` | internal/careeragent/model.go:1040-1184 | and one with the generic word in the title and the same skill with 47 |
| `ScoringWitness.PostMeans` | internal/careeragent/router_role_family.go:62-128 | the words of the example have these kinds in the program's tables |
| `ScoringWitness.SpecialistSelected` | internal/careeragent/router_role_family.go:364-393 | so in that vocabulary the first of the two is selected, under every search history |
| `RoutingWitness.ChoiceWithFivePoints` | internal/careeragent/router_role_family.go:378-393 | in that vocabulary, of three such resumes with fits 54, 49 and 44 the first is selected only because the searches of the third found the vacancy |
| `RoutingTheorems.RouteForgetsResumeOrder` | internal/careeragent/model.go:614-632 | with distinct resume ids the whole decision is the same for every order of the resume list |
| `ApplicationAttempt.LifeCycle` | internal/applicationattempt/model.go:123-241 | over every sequence of outcomes and reconciliations a valid attempt stays valid and keeps its identity, stops blocking only from SENDING to REJECTED or NOT_SENT, and is final once rejected, not sent or confirmed |
| `ApplicationAttempt.OutcomeRefused` | internal/applicationattempt/model.go:123-172 | an outcome is accepted if and only if the attempt is being sent, or a confirmed response follows an acceptance or an uncertain delivery; it changes state, status, error and time |
| `ApplicationAttempt.ObservationRefused` | internal/applicationattempt/model.go:174-241 | an observation is refused if and only if it would confirm an attempt known to have had no effect, or names an application, negotiation or conversation id other than the one observed before |
| `ApplicationAttempt.RecordedObservationExtendsLog` | internal/applicationattempt/model.go:174-241 | a recorded observation extends the log by exactly one entry if and only if there was an observation before or it brings no history of its own |
| `ApplicationAttempt.LatestEntryIsIncoming` | internal/applicationattempt/model.go:174-241 | the newest entry is the incoming observation; only missing application and negotiation ids are carried forward, and the conversation id never |
| `ApplicationAttempt.LatestEntryFillsGaps` | internal/applicationattempt/model.go:174-241 | nothing else of it changes, except that a confirmation takes over source, identities and response time that it lacks, and an observation without a time gets that of the change |
| `ApplicationAttempt.OtherChangesKeepLog` | internal/applicationattempt/model.go:151-241 | refused changes, outcomes, and weak evidence after confirmation leave the observation alone |
| `ApplicationAttempt.LogOnlyGrows` | internal/applicationattempt/model.go:174-241 | over every sequence of changes the old log stays a prefix and grows by one entry per recorded observation |
| `ApplicationAttempt.ConfirmedIdsKept` | internal/applicationattempt/model.go:186-232 | after confirmation an accepted change keeps a given application or negotiation id if and only if it does not bring a blank but non-empty one |
| `ApplicationAttempt.ConfirmedIdsKeptForever` | internal/applicationattempt/model.go:186-232 | with trimmed ids a confirmed attempt stays confirmed and keeps its ids over every sequence of changes |
| `AttemptStore.ValidateAttempts` | internal/adapters/storage/json/application_attempt.go:324-343 | the validation loop accepts a file exactly when all attempts are valid, ids are distinct, and no vacancy has two blocking attempts |
| `AttemptStore.FirstBlockingFinds` | internal/adapters/storage/json/application_attempt.go:74-80 | the search finds a blocking attempt of the vacancy if there is one |
| `AttemptStore.ApplicationAttemptRepository.Reserve` | internal/adapters/storage/json/application_attempt.go:58-92 | reserving changes file and memory together or not at all, and returns the blocking attempt when it refuses |
| `AttemptStore.ApplicationAttemptRepository.Record` | internal/adapters/storage/json/application_attempt.go:94-197 | recording an outcome or evidence replaces exactly the attempt with that id, or changes nothing and says why |
| `AttemptStore.UnknownOutcomeRefused` | internal/adapters/storage/json/application_attempt.go:94-110 | a state that is no outcome is refused without a look at the file |
| `AttemptStore.ApplicationAttemptRepository.FindBlocking` | internal/adapters/storage/json/application_attempt.go:133-161 | reading returns the first blocking attempt of the vacancy, none, or that the store is unreadable |
| `AttemptStore.WrittenKeeps` | internal/adapters/storage/json/application_attempt.go:306-322 | the sorted file holds the same attempts and is valid |
| `AttemptStore.WrittenInOrder` | internal/adapters/storage/json/application_attempt.go:306-322 | the file lists the oldest attempt first, and of equally old ones the one with the smaller id |
| `AttemptStore.ReserveOnStore` | internal/adapters/storage/json/application_attempt.go:58-92 | a reservation goes through if and only if the attempt is valid and sending, the file can be read and written, and no attempt of the vacancy blocks; it then adds this attempt alone |
| `AttemptStore.ChangeOnStore` | internal/adapters/storage/json/application_attempt.go:94-197 | a change goes through if and only if the id is known, the attempt allows it and the file can be read and written; it changes this attempt alone and keeps the file valid |
| `DispatchProtocol.ReserveRefines` | internal/adapters/storage/json/application_attempt.go:58-92 | the repository reserves as the protocol step does |
| `DispatchProtocol.ChangeRefines` | internal/adapters/storage/json/application_attempt.go:94-197 | the repository records outcomes and evidence as the protocol steps do |
| `DispatchProtocol.ValidFileIsInitial` | internal/adapters/storage/json/application_attempt.go:324-343 | every valid file is where a run of the protocol may begin |
| `DispatchProtocol.NextKeepsInv` | internal/usecase/applicationattempt/executor.go:58-100 | every step of every worker keeps the protocol invariant |
| `DispatchProtocol.RunKeepsInv` | internal/usecase/applicationattempt/executor.go:58-100 | so does every run with crashes and reconciliations: one blocking attempt a vacancy at most, one worker an attempt, nothing sent twice |
| `DispatchProtocol.AtMostOnce` | internal/usecase/applicationattempt/executor.go:58-100 | in every run, if two applications go out for one vacancy the earlier attempt is on record as rejected or not sent, and no attempt is sent twice |
| `DispatchProtocol.ReservationsFindNothingOpen` | internal/adapters/storage/json/application_attempt.go:74-80 | in every reachable state a reservation goes through if and only if all earlier attempts on the vacancy are rejected or not sent |
| `DispatchProtocol.ClosedIsNeverSentAgain` | internal/applicationattempt/model.go:123-149 | once a vacancy is accepted, uncertain or confirmed nothing more is sent for it in any continuation, if and only if no worker already holds an unsent reservation for it |
| `DispatchProtocol.ConfirmationCanRaceWithSending` | internal/applicationattempt/model.go:174-241 | the exception is reachable: evidence may confirm an attempt between its reservation and its dispatch |
| `DispatchProtocol.OrphanBlocksForever` | internal/applicationattempt/model.go:138-145 | an attempt nobody works on any more can only be confirmed, and blocks its vacancy in every continuation |
| `DispatchProtocol.CrashNeverReleases` | internal/usecase/applicationattempt/executor.go:74-99 | a crash after reserving leaves the vacancy blocked for good |
| `AttemptExecutor.Executor.SubmitApplication` | internal/usecase/applicationattempt/executor.go:58-100 | a submission reserves first, sends once if and only if it reserved, then records the outcome; a blocked one leaves the file as its handler does; whatever fails, file, sent list, outcome and error are those of these operations, and an unrecorded outcome counts as uncertain |
| `AttemptExecutor.ReservesExactly` | internal/usecase/applicationattempt/executor.go:58-84 | an attempt is reserved if and only if id, vacancy, resume and time are given, the store works, and every attempt of the vacancy is rejected or not sent; it is being sent, for that vacancy and resume, since now |
| `AttemptExecutor.ReplyIsFiled` | internal/usecase/applicationattempt/executor.go:86-125 | an accepted reply is filed as accepted, a rejected one as rejected, an uncertain one as uncertain, nothing sent as not sent, and an outcome that could not be recorded leaves the attempt sending; the vacancy is blocked afterwards unless the reply is recorded and says that nothing came of it |
| `AttemptExecutor.ReplyDetails` | internal/usecase/applicationattempt/executor.go:86-96 | status, error and time of the reply are filed with it, and every other attempt stays as it was |
| `AttemptExecutor.Executor.HandleBlocked` | internal/runtime/application_submission_compat.go:120-130 | the handler of a blocked submission records its observation of the first blocking attempt, and its failures have no effect |
| `AttemptExecutor.BlockedIsObserved` | internal/runtime/application_submission_compat.go:120-130 | a blocked submission records the observation with the blocking attempt if the store works, and otherwise changes nothing |
| `AttemptExecutor.BlockedStaysBlocked` | internal/usecase/applicationreconciliation/service.go:127-189 | whatever the handler observes, a blocked submission is at most one reconciliation step of the protocol, keeps the file valid, and leaves the vacancy blocked |
| `AttemptExecutor.SubmissionIsThreeSteps` | internal/usecase/applicationattempt/executor.go:58-125 | one submission through the repository is the protocol run reserve, send, record |
| `AttemptExecutor.AutomaticApplicationGate` | internal/runtime/application_attempt_policy_compat.go:15-36 | the gate lets a vacancy pass only on a clean read without a blocking attempt, or in a dry run without a store; it names the blocking attempt otherwise and fails closed |
| `NetscapeFile.CookieLessIsStrict` | internal/hhwebsession/netscape.go:107-118 | the order of the file is strict, by domain, path and name |
| `NetscapeFile.SerializeNetscapeCookies` | internal/hhwebsession/netscape.go:101-160 | the writing loop produces header and rows in stable order, or the error of the first row that cannot be written |
| `NetscapeFile.ParseNetscapeCookies` | internal/hhwebsession/netscape.go:22-79 | the reading loop returns the live cookies of all rows in order, or fails at the first bad row or at the first line of 65,536 or more bytes |
| `NetscapeTheorems.WholeSecondsKept` | internal/hhwebsession/netscape.go:140-143 | the file keeps an expiry exactly when it is in whole seconds |
| `NetscapeTheorems.RowReadsBack` | internal/hhwebsession/netscape.go:22-160 | the row of a readable cookie (hh.ru host, no tab and no line feed in the path, row shorter than 65,536 bytes) reads back as the cookie, to the second, while it lives |
| `NetscapeTheorems.RowUnreadable` | internal/hhwebsession/netscape.go:22-160 | the row of any other cookie is an error, that of a long line or that of a bad row, unless the cookie is disguised: its path has a line feed and exactly four tabs before it |
| `NetscapeTheorems.FileReadsBack` | internal/hhwebsession/netscape.go:22-160 | without disguised cookies a written file reads back row by row: the live cookies in file order with every field kept, or the error of the first cookie that is not readable; one cookie neither readable nor disguised makes any file unreadable |
| `NetscapeTheorems.TextInFormat` | internal/hhwebsession/netscape.go:22-79 | whatever the reader returns, of any text, has an hh.ru host and a path without tab and line feed |
| `NetscapeTheorems.ReadsRight` | internal/hhwebsession/netscape.go:22-160 | reading gives back exactly the live cookies if and only if every written cookie is readable, provided disguised ones still live |
| `NetscapeTheorems.RoundTrip` | internal/hhwebsession/netscape.go:22-160 | for readable cookies with whole-second expiries, parsing what was serialised returns exactly the live cookies in (domain, path, name) order |
| `NetscapeTheorems.TiesKeepOrder` | internal/hhwebsession/netscape.go:104-118 | cookies that agree in domain, path and name are written in the order of the jar |
| `NetscapeTheorems.FileOrder` | internal/hhwebsession/netscape.go:104-118 | the file lists cookies by domain, then by path, then by name |
| `NetscapeTheorems.RowRefused` | internal/hhwebsession/netscape.go:119-160 | a cookie is not written if and only if it has no name, no allowed host, or a path that is not from the root |
| `NetscapeTheorems.RowReadsCookie` | internal/hhwebsession/netscape.go:22-95 | a cookie that is read has a clean name, a path from the root, and an expiry, if any, in whole seconds and yet to come |
| `NetscapeTheorems.ReadAsAnother` | internal/hhwebsession/netscape.go:22-160 | a disguised cookie can be read back as another cookie: the file loads, and is wrong |
| `CookieJar.DefaultPathMatches` | internal/hhwebsession/jar.go:266-294 | a path matches its own default path |
| `CookieJar.SentBack` | internal/hhwebsession/jar.go:56-149 | an accepted cookie without a path attribute goes back to the request that set it if and only if it is allowed on the scheme and the escaped path of the request is, or lies below, the directory of its decoded path; that holds if the path needs no escaping |
| `CookieJar.PersistentJar.Open` | internal/hhwebsession/jar.go:27-54 | a jar is loaded from its file exactly if every row can be read and every domain is allowed, and then holds the cookies read |
| `CookieJar.RefusedExactly` | internal/hhwebsession/jar.go:90-128 | a response may set a cookie if and only if its host is in scope, the cookie has a name and a path from the root, and a domain, if given, is the host itself and takes the place of no live host-only cookie; each error says which of these fails first |
| `CookieJar.DefaultPathCuts` | internal/hhwebsession/jar.go:282-291 | the default path is what stands before the last slash |
| `CookieJar.FirstFaultNoted` | internal/hhwebsession/jar.go:81-165 | a response has no error noted if and only if all its cookies are accepted, and otherwise only the first, unless one was noted before |
| `CookieJar.AcceptedSends` | internal/hhwebsession/jar.go:253-280 | an accepted cookie is sent to a request if and only if it is meant for it: without a Domain attribute for the host that set it alone, with one also for the hosts below; for its path and what lies below; a secure one for https |
| `CookieJar.SentExactly` | internal/hhwebsession/jar.go:56-149 | to which later requests a cookie goes that a response has set: while it lives, exactly to those it is meant for |
| `CookieJar.StoredExact` | internal/hhwebsession/jar.go:130-148 | storing replaces or removes the cookie with the same (name, path, domain, host-only) key, keeps all others, and keeps keys distinct |
| `CookieJar.MaxAgeIgnored` | internal/hhwebsession/jar.go:131-139 | a positive Max-Age has no effect on what is stored |
| `CookieJar.SentInJarOrder` | internal/hhwebsession/jar.go:62-79 | cookies are sent in the order of the jar, whatever the lengths of their paths |
| `CookieJar.PersistentJar.Cookies` | internal/hhwebsession/jar.go:56-79 | a request gets exactly the live cookies that match host, path and scheme, and expired ones leave the jar |
| `CookieJar.ServingDropsExpired` | internal/hhwebsession/jar.go:56-79 | a request leaves exactly the live cookies in the jar |
| `CookieJar.PersistentJar.StoreIncoming` | internal/hhwebsession/jar.go:90-149 | one incoming cookie is refused, deleted, replaced or appended, and the result says whether anything changed |
| `CookieJar.PersistentJar.StoreItem` | internal/hhwebsession/jar.go:129-149 | an accepted cookie is deleted, replaced or appended, and the result says whether the jar changed |
| `CookieJar.PersistentJar.SetCookies` | internal/hhwebsession/jar.go:81-159 | a response stores its cookies in order and writes the file once, if anything changed |
| `JarTheorems.InStepIffReadable` | internal/hhwebsession/jar.go:27-54 | a jar that agrees with what was written last is in step with its file, from now on, if every written cookie is readable, and as long as the disguised ones live only if |
| `JarTheorems.WrittenLoadsRight` | internal/hhwebsession/jar.go:192-226 | a jar just written, whatever its paths and hosts: loading the file at once gives its live cookies if and only if every cookie is readable, provided disguised ones still live |
| `JarTheorems.CallTracks` | internal/hhwebsession/jar.go:27-159 | every request, response and reload keeps the jar in agreement with what was written last |
| `JarTheorems.JarStaysInStep` | internal/hhwebsession/jar.go:27-159 | over every run of requests, responses and reloads in time order, whatever the request paths, without a failed write and without a reload that meets a disguised cookie, keys stay distinct, and reloading the file gives exactly the live cookies if, and as long as disguised ones live only if, every cookie in it has an hh.ru host, a path without tab and line feed, and a row below 65,536 bytes |
| `JarTheorems.OrdinaryRun` | internal/hhwebsession/jar.go:90-149 | when no request path disguises a row, no run ever meets or writes a disguised cookie |
| `JarTheorems.FirstJarLoads` | internal/hhwebsession/jar.go:81-159 | the first cookie of a request for dir/leaf is stored and written without an error on every configured host; the file can be loaded if and only if the host is under hh.ru, dir has neither tab nor line feed, and host, dir, name, value and the 17 bytes around them stay below 65,536 bytes |
| `JarTheorems.StepCanBeLost` | internal/hhwebsession/jar.go:90-128 | the requests /a%09b/c and /a%0Ab/c on hh.ru, one on a configured host outside it, and a value of 65,536 letters store a cookie after which the file does not load |
| `JarTheorems.SetterCanBeForgotten` | internal/hhwebsession/jar.go:56-149 | the responses to /a%20b/c and /a%2Fb/c on hh.ru store a cookie that goes back to neither |
| `JarTheorems.SubdomainNeedsDomain` | internal/hhwebsession/jar.go:56-149 | a cookie that hh.ru sets for / goes to api.hh.ru if and only if it was set with a Domain attribute |
| `JarTheorems.JarLoadsAnother` | internal/hhwebsession/jar.go:27-159 | for every readable host-only cookie of a host under hh.ru there is a request directory for which a jar stores one cookie and writes it, both without an error, and loads the other |
| `JarTheorems.WrongCookieLoaded` | internal/hhwebsession/jar.go:27-159 | so the request /a%09FALSE%090%09m%09w%0A%23/c on hh.ru leaves a file that loads as the cookie m for /a instead of the cookie n that was stored |
| `CandidateParity.DiffEmptyIffEqual` | internal/candidateparity/parity.go:304-373 | the recursive difference of two trees is empty exactly for equal trees |
| `CandidateParity.DiffMeaning` | internal/candidateparity/parity.go:304-373 | the difference holds exactly the places where the trees differ, each as what it is: missing where only the first has a field, extra where only the second has it, a length, or a value |
| `CandidateParity.DifferenceLog.DiffJson` | internal/candidateparity/parity.go:304-355 | the method that appends to a shared log appends exactly the difference, in key and index order |
| `CandidateParity.ConvertCollection` | internal/candidateparity/parity.go:174-210 | the conversion loop files each item under its id, or its position without one |
| `CandidateParity.CheckIdentities` | internal/candidateparity/parity.go:212-253 | one duplicate is reported for each item whose non-empty id occurred before, in order |
| `CandidateParity.FindDuplicates` | internal/candidateparity/parity.go:212-253 | the search through nested lists reports the duplicates of the document in order |
| `CandidateParity.CompareCandidateSemantic` | internal/candidateparity/parity.go:33-54 | comparison reports duplicates of both sides and the difference of the normal forms, and equivalence exactly when there are none |
| `KeySets.SortedKeysSorted` | internal/candidateparity/parity.go:310-320 | gathered keys are sorted and distinct |
| `KeySets.CollectKeys` | internal/candidateparity/parity.go:310-320 | keys come out in the same order however a map is walked |
| `ParityTheorems.ListsAgree` | internal/candidateparity/parity.go:174-194 | two lists of entities, with whatever ids, have equal normal forms if and only if the same item, up to order below, is the last with every id that is not of the form #n and stands under every position #n |
| `ParityTheorems.EntitiesPermute` | internal/candidateparity/parity.go:174-194 | for lists without repeated ids in which no id is the position of an item without one, that means: as many items, matched up by a permutation in which items without an id keep their place |
| `ParityTheorems.ClashHidesEntity` | internal/candidateparity/parity.go:174-194 | an item without an id that has its position for the id of another disappears behind the other |
| `ReferenceParity.ReferencesAgree` | internal/candidateparity/parity.go:196-210 | two lists of references, of any entries, have equal normal forms if and only if they hold the same names that are not of the form #n and the same entry stands under every position #n |
| `ReferenceParity.ReferencesAgreeByMembers` | internal/candidateparity/parity.go:196-210 | without names of the form #n: if and only if the non-empty members are the same and the empty entries stand at the same positions |
| `ReferenceParity.EmptyReferenceIsPositional` | internal/candidateparity/parity.go:196-210 | so ["", "a"] and ["a", ""] differ although they have the same members |
| `ReferenceParity.PositionalNameHidesEmpty` | internal/candidateparity/parity.go:196-210 | and an empty reference disappears behind one that has its position as a name |
| `ParityTheorems.NormalizedAgree` | internal/candidateparity/parity.go:121-210 | on all documents, whatever ids and references they hold, normal forms are equal if and only if the documents are the same up to the order of their entities and references, at every depth |
| `ParityTheorems.DuplicatesEmpty` | internal/candidateparity/parity.go:212-253 | on every document the duplicate search finds nothing if and only if no list at any depth holds a non-empty id twice |
| `ParityTheorems.EquivalentIffSameUpToOrder` | internal/candidateparity/parity.go:33-54 | two documents, whatever ids and references they hold, are equivalent if and only if neither holds a duplicate and they are the same up to the order of their entities and references |
| `ParityTheorems.EquivalentParts` | internal/candidateparity/parity.go:33-54 | equivalence is absence of duplicates on both sides and equal normal forms |
| `ParityTheorems.EquivalenceSymmetricTransitive` | internal/candidateparity/parity.go:33-59 | equivalence is symmetric and transitive on all documents |
| `ParityTheorems.ReflexiveIffNoDuplicates` | internal/candidateparity/parity.go:33-59 | every document is equivalent to itself if and only if it holds no duplicate |
| `CandidateSchema.CandidateWellFormed` | internal/candidateparity/parity.go:121-172 | the candidate document meets the conditions of these theorems |
| `SkillAssembly.FactRoundTrip` | internal/candidate/assembly.go:397-440 | the metadata of a profile fact may be shown exactly when the fact may, and a fact comes back from it unchanged exactly when its confirmed flag agrees with that and its source is a known one |
| `SkillAssembly.FactTruth` | internal/candidate/assembly.go:397-440 | a fact is confirmed if the user confirmed it, verified if a resume or an account did, a guess if what confirms it is not trusted or if it is only derived |
| `SkillAssembly.GroupByName` | internal/candidate/assembly.go:228-245 | grouping files every assertion with a name under its key, in order, and nothing else |
| `SkillAssembly.ChosenIsStrongest` | internal/candidate/assembly.go:532-553 | the chosen assertion has maximal rank and the least id among those |
| `SkillAssembly.ChooseSkillAssertion` | internal/candidate/assembly.go:532-540 | the loop returns the chosen assertion |
| `SkillAssembly.HasConfirmedNegative` | internal/candidate/assembly.go:630-637 | true exactly when some negative assertion is confirmed |
| `SkillAssembly.ConflictingTrustedLevels` | internal/candidate/assembly.go:639-666 | true exactly when some compared assertion of the rank of the first compared one has another level |
| `SkillAssembly.ComparedExactly` | internal/candidate/assembly.go:639-660 | the levels compared are the known ones of safe positive assertions, of detailed ones only where there are any |
| `SkillAssembly.LevelConflictMeaning` | internal/candidate/assembly.go:639-666 | every reported level conflict is one; a conflict is missed if and only if it is confined to a rank other than that of the first compared assertion |
| `SkillAssembly.LevelConflictMissed` | internal/candidate/assembly.go:227-294 | such a conflict is really missed on valid input: of three detailed skills with one name and distinct ids, one verified and two confirmed at different levels, the assembled skill is not disputed |
| `SkillAssembly.CanonicalId` | internal/candidate/assembly.go:260-263 | a group is named after its detailed skill exactly when there is one such id and it is not empty |
| `SkillAssembly.Settle` | internal/candidate/assembly.go:260-294 | one group becomes one skill: its identity, level, polarity, state and metadata |
| `SkillAssembly.NamedAfterDetailed` | internal/candidate/assembly.go:260-263 | a skill has the id on which its detailed assertions agree, if that is not empty, and otherwise that of its key |
| `SkillAssembly.DisputedExactly` | internal/candidate/assembly.go:264-275 | a skill is disputed if and only if its assertions disagree on polarity or a level conflict is reported |
| `SkillAssembly.SettledShowsSurest` | internal/candidate/assembly.go:276-290 | a settled skill has level, polarity and metadata of an assertion that none outranks, of those the least id; with a confirmed denial it is negative, at an unknown level |
| `SkillAssembly.GroupHolds` | internal/candidate/assembly.go:228-258 | a group holds exactly the assertions with its key, by id |
| `SkillAssembly.CandidateAggregate.MapCanonicalSkills` | internal/candidate/assembly.go:227-308 | the candidate gets one skill for each key, in key order |
| `SkillAssembly.StrongestIsSafest` | internal/candidate/assembly.go:532-553 | a settled skill may be shown as soon as one of its assertions may |
| `SkillAssembly.UndisputedHasOnePolarity` | internal/candidate/assembly.go:264-290 | an undisputed skill has the polarity of all its assertions |
| `SkillAssembly.BuildSkills` | internal/candidate/assembly.go:199-204 | building maps and then sorts the skills by id |
| `SkillAssembly.BuiltShowsSurest` | internal/candidate/assembly.go:199-294 | every skill built stands for one key with exactly its assertions and shows one of the surest of them, so it never has the level of an assertion that a surer one outranks |
| `SkillAssembly.BuiltInOrder` | internal/candidate/assembly.go:199-204 | the skills built are in the order of their ids |
| `SkillProjection.CanonicalEmployerSafeProjection` | internal/candidate/projection.go:43-85 | the projection fails exactly when a skill is disputed, and otherwise collects what each skill shows |
| `SkillProjection.SafeProfile` | internal/candidate/projection.go:129-138 | the profile part collects what each skill shows of its profile assertions |
| `SkillProjection.BuiltDisputed` | internal/candidate/assembly.go:264-285 | a built skill is disputed if and only if some group has both polarities or conflicting levels |
| `SkillProjection.GroupsShown` | internal/candidate/assembly.go:227-308 | over any distinct keys, what settled groups show is what their assertions show, each once |
| `SkillProjection.ProjectionExact` | internal/candidate/projection.go:43-85 | of a built candidate the view holds, as multisets, exactly the confirmed or verified detailed skills and the confirmed trusted profile skills that have a name |
| `SkillProjection.EmployerSafeSkills` | internal/candidate/projection.go:43-85 | end to end: refused if and only if a group is disputed, otherwise all safe skills of both sources, each unchanged and as often as given |
| `FactMerge.MergeFact` | internal/candidate/profile.go:467-479 | one fact is merged at the first match, or appended |
| `FactMerge.MergeFacts` | internal/candidate/profile.go:584-651 | the loop over incoming facts merges them in order |
| `FactMerge.PositionsKept` | internal/candidate/profile.go:467-479 | no position loses its key or priority, and a locked fact never changes |
| `FactMerge.ContestBound` | internal/candidate/profile.go:467-479 | the fact that ends up at a position took part, has the highest priority of all that did, and is locked if any was |
| `FactMerge.ContestAgain` | internal/candidate/profile.go:467-479 | it wins the same contest again |
| `FactMerge.MergeTwice` | internal/candidate/profile.go:584-651 | merging the same list twice is merging it once if and only if all its facts can be matched by a name |
| `FactMerge.MergeRestamped` | internal/candidate/profile.go:584-651 | merging a list and then the same facts anew, with the same names and priorities and none of them locked, is merging the new ones alone |
| `CandidateProfile.RulesLawful` | internal/candidate/profile.go:172-185 | the merge rules of all five lists are of the kind the merge theorems need |
| `CandidateProfile.SourcesRanked` | internal/candidate/profile.go:172-185 | the user outranks a resume, that a verified account, that what is derived, and that every other source |
| `CandidateProfile.MergeEducationFacts` | internal/candidate/profile.go:562-582 | the education merge, which first prefers the fact part and then replaces the entry, is the same merge |
| `CandidateProfile.MergeCandidateProfiles` | internal/candidate/profile.go:481-514 | merging profiles merges each part as specified |
| `CandidateProfile.MergeProfileTwice` | internal/candidate/profile.go:481-514 | merging the same profile twice is merging it once if and only if all its entries other than skills have names |
| `CandidateProfile.MergedPrefers` | internal/candidate/profile.go:481-540 | of two names, locations or totals the one that is there wins, of two that are there the one of higher rank, of equal rank the incoming one unless it alone has no source |
| `CandidateProfile.CandidateProfile.MergeSkill` | internal/candidate/profile.go:467-479 | merging a skill in place is the specified merge |
| `CandidateProfile.CandidateProfile.MergeHHResumeFacts` | internal/candidate/profile.go:402-433 | reading a resume updates location, education, experience, total and skills in place as specified |
| `CandidateProfile.ResumeTwice` | internal/candidate/profile.go:402-433 | reading the same resume twice, each time with its own time, leaves exactly what the second reading alone would have left |
| `CandidateProfile.UserFactsSurvive` | internal/candidate/profile.go:402-433 | a resume never lowers the priority of a skill position and leaves what the user confirmed: skills, location, total, experience |
| `CandidateProfile.ResumeFactsTaken` | internal/candidate/profile.go:402-433 | what the user does not hold back is taken: each known fact of a resume, with the resume as its source, and the rest of the profile stays |
| `CandidateProfile.ResumeSkillsTaken` | internal/candidate/profile.go:427-479 | every skill of a resume is taken in the place of the first skill of its name, unless that is the user's, or else behind the others |
| `CandidateProfile.ResumeSkillsMerged` | internal/candidate/profile.go:402-433 | so they are in the merged profile |
| `CandidateProfile.UserEducationSurvives` | internal/candidate/profile.go:402-465 | user-confirmed education survives a resume if and only if the resume has none or the first confirmed entry is the user's |
| `CandidateProfile.UserEducationCanBeLost` | internal/candidate/profile.go:402-465 | it can be lost, on facts with time and evidence, behind a confirmed entry of another source |
| `SearchMerge.AppendUniqueStrings` | internal/careeragent/router_role_family.go:253-265 | appending keeps the values and adds what is new and not empty, once |
| `SearchMerge.AddUniqueMembers` | internal/careeragent/router_role_family.go:253-265 | the members afterwards are the old values and the non-empty additions, without repetition |
| `SearchMerge.LeadersLead` | internal/careeragent/model.go:447-476 | the merged searches are led by first occurrences of a key, in order |
| `SearchMerge.EveryoneFollows` | internal/careeragent/model.go:447-476 | every search with a query is merged into one that leads its key at no later position |
| `SearchMerge.MergedKeys` | internal/careeragent/model.go:447-476 | merged searches have queries and pairwise distinct keys |
| `SearchMerge.MergeSearchProfiles` | internal/careeragent/model.go:447-476 | the loop yields one search for each key, on behalf of exactly the resumes and with exactly the evidence of all that share it, sorted, under the least resume id |
| `SearchMerge.NothingIsLost` | internal/careeragent/model.go:447-476 | merging loses no source resume and no evidence, and moves no search back |
| `SearchPlanner.CollectSources` | internal/careeragent/model.go:248-267 | for every family the sources of the enabled resumes that have a query in it, in order |
| `SearchPlanner.ReservePasses` | internal/careeragent/model.go:272-300 | the first two passes reserve one query for each resume and then for each family without one |
| `SearchPlanner.RoundEnds` | internal/careeragent/model.go:302-317 | a round is empty exactly when no source has a query at its offset, which is so from the longest source on: the open-ended loop ends |
| `SearchPlanner.AddVariants` | internal/careeragent/model.go:302-317 | the rounds add the further queries across families and sources until a round is empty |
| `SearchPlanner.PlanSearches` | internal/careeragent/model.go:233-327 | the plan is the merged list cut to the limit (16 unless positive), with pairwise distinct keys; with room for the enabled resumes and the nine families it shows every eligible family |
| `SearchPlanner.PlannedExactly` | internal/careeragent/model.go:319-327 | the plan is the longest front part of the merged searches within the limit, sixteen without one |
| `SearchPlanner.ReservationCovers` | internal/careeragent/model.go:272-300 | a query of every family with sources is among the first (enabled resumes + 9) |
| `SearchPlanner.PlanCoversFamilies` | internal/careeragent/model.go:233-327 | with a limit of at least the enabled resumes plus nine, every eligible family has a search in the plan |
| `SearchPlanner.LaterQueriesPlanned` | internal/careeragent/model.go:302-317 | every query of a source but its first is planned |
| `SearchPlanner.TakesTurns` | internal/careeragent/model.go:302-317 | before the query at one offset of a source come all queries at smaller offsets, then those at the same offset of the families before it, then of the sources before it |
| `SearchPlanner.ReservedInOrder` | internal/careeragent/model.go:272-300 | what is reserved for a resume comes before what is reserved for those behind it, and that before what is reserved for families alone |
| `SearchPlanner.ReservesIff` | internal/careeragent/model.go:274-291 | the first pass reserves for a resume if and only if it has a source in a family with no covered family before it in the order |
| `PlanFairness.ReservedExact` | internal/careeragent/model.go:269-300 | with distinct resume ids reservation holds exactly the first queries that one of the two passes takes: of a resume in its first family, with no family before it covered by earlier resumes, or of the first resume with a search in a family the first pass leaves uncovered |
| `PlanFairness.CoveredExact` | internal/careeragent/model.go:274-291 | with distinct resume ids the families that the first pass covers follow a recurrence: each enabled resume adds its first family unless a covered one comes before it |
| `PlanFairness.OrderedExact` | internal/careeragent/model.go:233-318 | everything planned before merging is exactly the later queries of enabled resumes and the first queries that one of the two passes takes |
| `PlanFairness.KeyPlanned` | internal/careeragent/model.go:233-327 | a key is among the merged searches if and only if one of those queries has it |
| `PlanFairness.ServesExact` | internal/careeragent/model.go:447-476 | a merged search names exactly the resumes that the searches with its key name |
| `PlanFairness.FirstQueryServed` | internal/careeragent/model.go:269-327 | the first query of a resume in a family is searched on its behalf, under a limit that is large enough, if and only if one of the two passes takes it or a later query of the resume in that family has the same key |
| `PlanFairness.UnreachedIsLost` | internal/careeragent/model.go:269-327 | otherwise no plan, whatever its limit, has that query on behalf of the resume |
| `PlanFairness.QueryCanBeLost` | internal/careeragent/model.go:269-327 | so with three resumes, one in the first family and two in the second, the first query of the third is in no plan at any limit, unless the second asks for it or the third does once more |
| `PlanFairness.ExampleIsLost` | internal/careeragent/model.go:269-327 | three concrete resumes whose queries differ in their parameters: the third is never searched for |
| `Discovery.VisitItem` | internal/careeragent/model.go:742-768 | one item of a page is skipped, noted under its profile, filtered, kept or over the limit |
| `Discovery.VisitPage` | internal/careeragent/model.go:741-769 | so are all items of a page, in order |
| `Discovery.VisitStream` | internal/careeragent/model.go:730-774 | the pages of a search are read up to the last one or a failure |
| `Discovery.Discover` | internal/careeragent/model.go:719-778 | discovery describes exactly what all searches showed up to the first failure: what is kept, indexed, seen and filtered |
| `Discovery.FirstsDistinct` | internal/careeragent/model.go:742-751 | first visits have distinct positive ids |
| `Discovery.FirstsCover` | internal/careeragent/model.go:742-751 | every positive id has a first visit |
| `Discovery.FirstsExactly` | internal/careeragent/model.go:742-751 | first visits are exactly those that show a positive id which none before them shows |
| `Discovery.FilteredExactly` | internal/careeragent/model.go:753-762 | a vacancy is filtered if and only if its first visit shows it older than allowed, or the cheap filter turns it away as it was shown, with that profile |
| `Discovery.KeptDistinct` | internal/careeragent/model.go:741-769 | kept vacancies have distinct positive ids and respect the limit |
| `Discovery.KeptInOrder` | internal/careeragent/model.go:741-769 | of two vacancies that are not filtered the one shown first is kept if the other is |
| `Discovery.LimitReached` | internal/careeragent/model.go:763-768 | nothing is over a limit that has not been reached |
| `Discovery.StreamExactly` | internal/careeragent/model.go:730-774 | a search is read up to the first answer after which it does not go on, page included, and fails if that is a failure or missing |
| `Discovery.ExactlyOneFate` | internal/careeragent/model.go:741-769 | every positive id shown is exactly one of kept, filtered and over the limit |
| `Discovery.ListedExactly` | internal/careeragent/model.go:745-752 | the profile list of a vacancy starts as it came and gains exactly the profiles that showed it, each once |
| `Discovery.KeptProfiles` | internal/careeragent/model.go:745-768 | so does that of every kept vacancy |
| `BatchRun.AutomaticApplicationBudget.RecordExecution` | internal/runtime/application_dispatch_budget.go:34-40 | a dispatch counts as soon as it was tried |
| `BatchRun.BatchRun.Finish` | internal/runtime/application_processing.go:41-64 | a terminal outcome is recorded once for each vacancy id and counted with it |
| `BatchRun.BatchRun.PassGate` | internal/runtime/application_processing.go:111-180 | the stages up to the cheap filters end a vacancy exactly as the gate verdict says |
| `BatchRun.BatchRun.PassLimits` | internal/runtime/application_processing.go:183-201 | the limits end a vacancy exactly when they are used up, and passing them counts it as eligible |
| `BatchRun.BatchRun.PassRouting` | internal/runtime/application_processing.go:205-352 | routing ends a vacancy exactly as the routing verdict says |
| `BatchRun.BatchRun.PassPreparation` | internal/runtime/application_processing.go:355-476 | preparation ends a vacancy exactly as the preparation verdict says |
| `BatchRun.BatchRun.Submit` | internal/runtime/application_processing.go:477-531 | submission ends a vacancy as its verdict says and spends budget for a preview that worked or a dispatch that was tried |
| `BatchRun.BatchRun.ProcessVacancy` | internal/runtime/application_processing.go:108-532 | every vacancy gets the outcome of the first stage that decides, and advances the limits accordingly |
| `BatchRun.BatchRun.ApplyVacancies` | internal/runtime/application_processing.go:108-532 | over the whole batch outcomes, limits and the whole summary are those of the run functions, and the counters stay balanced with the outcomes |
| `BatchRun.SubmittedExactly` | internal/runtime/application_processing.go:111-476 | an application is submitted if and only if the gate is clear, nothing speaks against it (cancellation, an answer, the cheap filters, routing, details, preparation), there is room, and the run is not stopped |
| `BatchRun.MatchedExactly` | internal/runtime/application_processing.go:111-531 | it ends as a match if and only if it is submitted and the preview worked or the provider accepted it |
| `BatchRun.GateEndsFirst` | internal/runtime/application_processing.go:111-180 | what ends a vacancy at the gate, an answer on record or the cheap filters gives its outcome and leaves the limits alone |
| `BatchRun.EligibleExactly` | internal/runtime/application_processing.go:183-352 | past the gate a vacancy counts as eligible exactly if the vacancy limit has room, and a refusal later spends nothing |
| `BatchRun.OutcomeMeans` | internal/runtime/application_processing.go:111-476 | which vacancies end as rejected by the analysis, without need of details, with details that cannot be read, as answered before, and as blocked |
| `BatchRun.ReviewMeans` | internal/runtime/application_processing.go:205-476 | which vacancies end in review |
| `BatchRun.RejectMeans` | internal/runtime/application_processing.go:111-476 | which end as refused by rules, and which at the application limit |
| `BatchRun.StoppedExactly` | internal/runtime/application_processing.go:477-531 | a run is stopped exactly by an application that meets the provider's limit, and never in a dry run |
| `BatchRun.TalliesCount` | internal/runtime/application_processing.go:41-64 | each counter counts the vacancies with its outcome |
| `BatchRun.AccountingExact` | internal/runtime/application_processing.go:97-103 | recorded outcomes add up to the vacancies processed if and only if no vacancy occurs twice |
| `BatchRun.CountersMatchOutcomes` | internal/runtime/application_processing.go:108-532 | with distinct ids each vacancy has its one outcome on record, and the blocked, review, already-responded, vacancy-limit and application-limit counters, applied plus would-apply, and rejected equal the outcome counts |
| `BatchRun.ShareFits` | internal/runtime/application_processing.go:108-532 | what a vacancy adds to the summary agrees with its outcome, so that the summary stays balanced with the outcomes |
| `BatchRun.OutcomeCounted` | internal/runtime/application_processing.go:123-180 | blocks are counted by how the attempt found at the gate was reconciled, matches as previews in a dry run and else as applications, and skipped vacancies by rule |
| `BatchRun.ErrorsCounted` | internal/runtime/application_processing.go:108-532 | errors are counted for the outcome, for an attempt whose reconciliation fails, for a run without an agent that cannot prepare, and for a prepared application that cannot be kept |
| `BatchRun.WorkCounted` | internal/runtime/application_processing.go:205-531 | analyses are counted where they end, for an application or for advice, and matches for what is submitted or kept back by a limit |
| `BatchRun.RoutingCounted` | internal/runtime/application_processing.go:205-352 | behind the limits a vacancy is counted by its preliminary route, its details if asked for and if they fail, and a review by whether it comes before or after them |
| `BatchRun.LimitsRespected` | internal/runtime/application_dispatch_budget.go:18-40 | vacancies, dispatches and previews never exceed a positive limit; a dry run dispatches nothing |
| `BatchRun.SpendingNeedsClearGate` | internal/runtime/application_processing.go:117-201 | budget is spent if and only if an application is submitted and its preview works or its provider call is tried, and then by one |
| `BatchRun.StoppedForGood` | internal/runtime/application_processing.go:117-122 | after the provider's own limit was hit nothing is spent and every later vacancy ends as cancelled or at the limit |
| `BatchRun.ValidateAccounting` | internal/runtime/vacancy_match.go:338-359 | the accounting check passes exactly for distinct positive ids that are the ids on record |
| `BatchRun.RunAndValidate` | internal/runtime/application_processing.go:20-103 | a run passes its accounting check if and only if its vacancies have distinct positive ids; shadow mode dispatches nothing |
| `BatchDispatch.PassGate` | internal/runtime/application_processing.go:123-157 | in a run with a store the gate answers as the first blocking attempt of the vacancy says, fails closed, and reconciles an unresolved attempt at once |
| `BatchDispatch.GateExactly` | internal/runtime/application_processing.go:123-157 | the gate is clear if and only if the vacancy has no id, or the store can be read and no attempt blocks it; the one that blocks it decides how |
| `BatchDispatch.BlockedVisitObserved` | internal/runtime/application_processing.go:123-157 | a vacancy that an unresolved attempt blocks sends nothing and uses up nothing, and has that attempt observed at once if the store works |
| `BatchDispatch.Submit` | internal/usecase/applicationsubmission/service.go:35-156 | a submission is refused beforehand or left to the executor, and what the batch loop is told of it follows from reservation, reply and record |
| `BatchDispatch.ToldExactly` | internal/usecase/applicationsubmission/service.go:35-156 | the loop hears of an acceptance only if it is on record, of no error only if there was none and an acceptance was projected, and of the provider's limit only from an error there |
| `BatchDispatch.NotReserved` | internal/usecase/applicationattempt/executor.go:58-84 | a submission that sends nothing leaves no trace, except that a vacancy blocked by then has its attempt observed |
| `BatchDispatch.ProcessVisit` | internal/runtime/application_processing.go:108-532 | gate, stages, executor and records together: store, sent applications and limits change as the vacancy says |
| `BatchDispatch.ProcessRun` | internal/runtime/application_processing.go:108-532 | so they do over a whole live run, with its accounting balanced |
| `BatchDispatch.VisitReached` | internal/runtime/application_processing.go:108-532 | every vacancy of a live run is a run of the dispatch protocol: nothing, one reconciliation, or reserve, send and record |
| `BatchDispatch.RunsReached` | internal/runtime/application_processing.go:108-532 | so are any number of live runs one after another |
| `BatchDispatch.OncePerVacancy` | internal/runtime/application_processing.go:108-532 | over any number of live runs, if two applications go out for one vacancy the earlier attempt is on record as rejected or not sent |
| `BatchDispatch.GoneOutFiled` | internal/runtime/application_processing.go:108-532 | what goes out in a live run is on file as its reply says when the run is over |
| `BatchDispatch.AnsweredForGood` | internal/runtime/application_processing.go:108-532 | a vacancy whose application went out with an accepted or uncertain reply, or with one that was not recorded, is never sent again, over any number of live runs |
| `BatchDispatch.SentNeedsConsent` | internal/runtime/application_processing.go:111-476 | a live run sends an application only for a vacancy against which nothing speaks |
| `BatchDispatch.MatchedIsAccepted` | internal/runtime/application_processing.go:477-531 | a vacancy that ends a live run as a match went out and was accepted |
| `BatchDispatch.BlockedForGood` | internal/runtime/application_processing.go:123-158 | a vacancy with a blocking attempt stays blocked over any number of live runs, and none of them sends an application for it |
| `BatchDispatch.RunAdvances` | internal/runtime/application_processing.go:108-532 | a live run uses up its limits as a batch with the answers of gate and executor does |
| `BatchDispatch.DispatchesCounted` | internal/runtime/application_dispatch_budget.go:18-40 | the dispatches a live run counts are applications that went out, all of those for which the provider call was tried, and never more than a positive limit; a dry run sends nothing |
| `AutoChatAttempt.LifeCycle` | internal/autochatattempt/model.go:72-182 | over every sequence of outcomes and reconciliations a chat attempt stays valid and itself, leaves the blocking states only from SENDING to REJECTED or NOT_SENT, and is confirmed for its own kind of action only, then for good |
| `AutoChatAttempt.FreshIsValid` | internal/autochatattempt/model.go:72-92 | an attempt being sent is valid if and only if it names itself, its conversation and its trigger, has a time, and is leaving or a reply with a request key |
| `AutoChatAttempt.OutcomeRefused` | internal/autochatattempt/model.go:111-133 | an outcome is accepted if and only if it is not older than the attempt and follows its state: the same one, an outcome of sending, or a confirmation of its own kind of an open attempt |
| `AutoChatAttempt.ObservationRefused` | internal/autochatattempt/model.go:135-150 | an observation is refused if and only if it is exact and about another message or about leaving, or would confirm a reply known to have had no effect |
| `AutoChatAttempt.ObservationKept` | internal/autochatattempt/model.go:135-168 | an accepted observation is kept unless it is weak and the attempt is confirmed |
| `AutoChatAttempt.ConfirmedEvidenceOnlyStrengthens` | internal/autochatattempt/model.go:135-168 | after confirmation the evidence is replaced by strong evidence only |
| `AutoChatAttempt.ReconciliationConfirms` | internal/autochatattempt/model.go:135-168 | an observation confirms an attempt if and only if it is an open reply and the evidence is strong and, if exact, names the message sent; it never changes that message's id |
| `AutoChatAttempt.LeavingNeedsOutcome` | internal/autochatattempt/model.go:135-182 | leaving is never confirmed by observation |
| `AutoChatAttempt.UnnamedExactEvidenceConfirms` | internal/autochatattempt/model.go:148-150 | exact evidence without a message id confirms a reply whose message id is unknown |
| `AttentionQueue.KeptById` | internal/careeragent/attention.go:10-18 | for each non-empty id an item that none precedes is kept |
| `AttentionQueue.FirstOfEqualsKept` | internal/careeragent/attention.go:14-17 | among equals the first is kept |
| `AttentionQueue.EnumerationsSortAlike` | internal/careeragent/attention.go:19-31 | every enumeration of the map sorts to the same list |
| `AttentionQueue.BuildAttentionQueue` | internal/careeragent/attention.go:7-31 | the queue is the same whatever order the map is walked in |
| `AttentionQueue.QueueShape` | internal/careeragent/attention.go:7-38 | the queue is strictly ascending by priority, time and id, with exactly one earliest item for every non-empty id |
| `AttentionQueue.QueueOrder` | internal/careeragent/attention.go:10-31 | items come by priority, then age, then id, and of the items with an id the one of first priority, of those the oldest, is shown |
| `AttentionQueue.RebuildChangesNothing` | internal/careeragent/attention.go:7-31 | rebuilding the queue from itself changes nothing |

## Left out

- HTTP, the browser, sessions, OAuth, AI prompts and completions: what they answer is an arbitrary input of the modelled loops.
- Clocks: the current time is a parameter; one reading per discovery, where the code reads it for each item.
- Files are one variable that receives the new content or an error; temporary files, renames, permissions, locks and the takeover of stale locks are not modelled.
- Hashing: ids derived by hashing are functions given as parameters; stable search profile ids, claim ids and capability ids are not modelled.
- Names: folding of skill and profile names, the alias tables and the vocabulary of role families are parameters; the theorems hold for all of them, and `RouterVocabulary` holds the program's own words for the example.
- Texts of reasons, events, logs, stage statistics and router counters.
- Rounding of floating point: ratios are compared as exact numbers.
- Lower-casing of characters outside ASCII, and texts that are not valid UTF-8: a line is measured in the UTF-8 bytes of its characters.
- Cookie fields other than those a cookie file holds, such as SameSite.
- JSON encoding and time zones before candidates are compared: the model starts from trees without empty lists in which times are already normalised; the trees are values, so rewriting them in place is modelled as a function.
- Where a difference lies is kept as a structure; its rendering as text is not modelled.
- How resume identities, eligible families and queries are derived from resume texts: the planner gets the searches of each resume and family as a parameter.
- Preliminary routing beyond its status, and validation of canonical candidate input.
- Canonical claims, capabilities, uses and diagnostics of skills; projects, achievements, languages, education and experience of the safe view.
- Communication and work preferences and pending questions of profile merges, which follow the same preference rules as the modelled string facts or are independent of them.
- CLI, configuration, enum checks, dashboard and port interfaces.
- ApplicationAttempt.LifeCycle: does not claim that the time of the last update grows, because it is clamped to the creation time only.
- ApplicationAttempt.ConfirmedIdsKept: does not claim that the conversation id is carried forward, because the code carries only application and negotiation ids.
- DispatchProtocol.ReserveRefines: attempt ids are taken to be fresh, as the code draws them at random.
- JarTheorems.JarStaysInStep: names, values and path attributes without tab and line break, hosts in normal form and expiries in whole seconds, as HTTP responses deliver them. What a reload that meets a disguised cookie leaves in the jar is said for its first cookie only (`JarTheorems.JarLoadsAnother`).
- ParityTheorems.EquivalentIffSameUpToOrder: where the schema has lists there are no objects, as the candidate's types have it.
- RoutingHistory.SomeHistorySelects: resume ids are distinct and non-empty, and no resume's hash is the id of another.
- PlanFairness.FirstQueryServed: resume ids are distinct, and that of the resume is not empty, since a merged search names no empty id.
- BatchDispatch.OncePerVacancy: live runs over one store follow each other, and attempt ids are fresh; runs that interleave, with crashes, are those of `DispatchProtocol.AtMostOnce`. The store is configured; the dry run without one is in `AttemptExecutor.AutomaticApplicationGate`.
- CookieJar.PersistentJar.Cookies: the jar's slice is a sequence that is assigned anew; that the filter reuses its storage is not modelled.
- The merges of lists other than a profile's own skills work on values; the source copies these lists before it merges.
- Helpers of the batch loop that count AI recommendations and router outcomes are left out, as they touch none of the modelled counters.
