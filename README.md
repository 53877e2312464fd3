# 36-type personality quiz: scoring and type resolution

This project models the engine of a Japanese-language personality quiz.

1. The catalog.
   - Two axes of six values each: core value (X) and relationship style (Y).
   - Per-value tables of names, emoji, colours and psychological building blocks.
   - Two per-pair override tables (character names and visual designs).
   - A nested loop that builds the 36-entry catalog `personalityTypes`, keyed `lowercase(x)-lowercase(y)`.
   - The fixed table of 25 weighted questions.
2. The quiz session.
   - An answer on the five-point scale (-2..2) pushes a snapshot of the scores onto a history stack.
   - It then adds weight × answer to every trait the current question weights, and moves to the next question or starts finishing.
   - "Back" pops the snapshot again.
   - The result is the first maximal X value and the first maximal Y value in declaration order, looked up in the catalog.
3. The compatibility pair shown with a result. "Best" and "worst" partners are found by rotating the result's axis positions.

Modules, one concept each:

- `Wrappers`: `Option`.
- `Axes`: the axis datatypes and lists, `toLowerCase`, the catalog key `Id`, and the per-value tables.
- `TypeCatalog`:
  - the record type and the override tables;
  - `Entry`, the record the loop stores for one pair;
  - `Catalog()`, the finished table as a value;
  - `BuildCatalog`/`FillRow`, the nested loop as methods proved to produce `Catalog()`.
- `QuestionBank`: the 25 questions and their well-formedness.
- `Scoring`: score tables with "missing = 0" and the accumulation of one answer. `Accumulate` is the specification; `AddWeighted` is the `forEach` loop proved against it.
- `Resolver`: first-maximum selection (`ArgMax` specification, `SelectFirstMax` loop), the catalog lookup with its fallback, and `GetResultType`.
- `Quiz`: session values with `Answer`/`GoBack`, replay of an answer sequence, and the class `QuizSession` whose methods update the fields in place.
- `Compatibility`: `findCompatibility`.

The narrative texts are kept as a template tag plus the table values interpolated into it, in order. The Japanese prose around the slots is content and is not modelled.

Two boundary cases are modelled as the code handles them, not as errors:

- An answer value outside -2..2 is not rejected. The handler accepts any number, and only the five buttons limit what arrives. `Quiz.LikertRange` states the values the buttons offer.
- Going back on the first question is not an error. The handler does nothing there, and `Quiz.GoBack` returns the session unchanged.

## Model

| member | source | states |
|---|---|---|
| Axes.XIndex | src/lib/quizData.ts:27 | the position returned for an X value is in range and holds that value in `X_AXES` |
| Axes.YIndex | src/lib/quizData.ts:28 | the position returned for a Y value is in range and holds that value in `Y_AXES` |
| Axes.AxesIndexed | src/lib/quizData.ts:27-28 | position lookup inverts indexing into both axis lists |
| Axes.AxesAreEnumerations | src/lib/quizData.ts:27-28 | each axis list has exactly six values, none twice, and every value of the axis occurs; this row also covers the constants `XAxes` and `YAxes` |
| Axes.ToLower | src/lib/quizData.ts:167 | lowercasing keeps the length, turns each ASCII capital into its lowercase letter (code + 32), keeps every other character in place, and leaves no ASCII capital |
| Axes.XKey | src/lib/quizData.ts:27 | the string under which an X value is declared; `Axes.XLowerIs` gives its lowercase spelling |
| Axes.YKey | src/lib/quizData.ts:28 | the string under which a Y value is declared; `Axes.YLowerIs` gives its lowercase spelling |
| Axes.XLowerIs | src/lib/quizData.ts:167 | lowercasing each X key gives its lowercase spelling |
| Axes.YLowerIs | src/lib/quizData.ts:167 | lowercasing each Y key gives its lowercase spelling |
| Axes.XLowerDistinct | src/lib/quizData.ts:27 | lowercase X keys are pairwise distinct and contain no dash |
| Axes.YLowerDistinct | src/lib/quizData.ts:28 | lowercase Y keys are pairwise distinct and contain no dash |
| Axes.SplitJoin | src/lib/quizData.ts:167 | a dash-free left part joined with a dash is recovered by splitting at the first dash, and so is the right part |
| Axes.IdInjective | src/lib/quizData.ts:167 | two pairs with the same catalog key are the same pair |
| Axes.Id | src/lib/quizData.ts:167 | the catalog key of a pair; `Axes.IdInjective` and `Axes.IdsDistinct` state that it is injective, `Axes.SplitJoin` that both halves can be recovered |
| Axes.IdsDistinct | src/lib/quizData.ts:162-167 | the key composition is injective over all 36 pairs |
| Axes.XDetails | src/lib/quizData.ts:170 | `X_DETAILS[x]`; `Axes.TablesNonEmpty` and `TypeCatalog.EntryNameEmojiColor` state its properties |
| Axes.YName | src/lib/quizData.ts:171 | the name in `Y_DETAILS[y]`; `Axes.TablesNonEmpty` and `TypeCatalog.EntryNameEmojiColor` state its properties |
| Axes.XPsychologyOf | src/lib/quizData.ts:168 | `X_PSYCHOLOGY[x]`; `Axes.TablesNonEmpty` and `TypeCatalog.EntryNarratives` state its properties |
| Axes.YPsychologyOf | src/lib/quizData.ts:169 | `Y_PSYCHOLOGY[y]`; `Axes.TablesNonEmpty` and `TypeCatalog.EntryNarratives` state its properties |
| Axes.TablesNonEmpty | src/lib/quizData.ts:33-82 | every name, emoji, colour, essence, desire, fear, mode, defense and trap used in an entry is non-empty; this row also covers the constants `XDetailsTable`, `YNameTable`, `XPsychologyTable` and `YPsychologyTable` |
| TypeCatalog.Lookup | src/lib/quizData.ts:172-178 | an override lookup misses exactly when no pair has the key, and a hit returns a value listed under that key |
| TypeCatalog.CharacterName | src/lib/quizData.ts:178 | the character name is never empty |
| TypeCatalog.VisualFor | src/lib/quizData.ts:172 | the visual design of a pair; `TypeCatalog.VisualRule` and `TypeCatalog.VisualFilled` state its properties |
| TypeCatalog.CharacterNameRule | src/lib/quizData.ts:178 | an unlisted key gives "<X name>の執行官"; a listed key gives a name listed under it, never the fallback |
| TypeCatalog.VisualRule | src/lib/quizData.ts:172 | an unlisted key gives the default design {User, Circles, #cccccc}; a listed key gives a design listed under it |
| TypeCatalog.Entry | src/lib/quizData.ts:174-190 | the record stored for one pair; `TypeCatalog.EntryId`, `TypeCatalog.EntryNameEmojiColor`, `TypeCatalog.EntryMatchIds`, `TypeCatalog.EntryOverridesFilled` and `TypeCatalog.EntryNarratives` state its fields |
| TypeCatalog.EntryId | src/lib/quizData.ts:174-189 | an entry's id is its pair's key and its coordinate is its pair |
| TypeCatalog.EntryNameEmojiColor | src/lib/quizData.ts:176-186 | name is X name + "の" + Y name; emoji and colour are the X value's for every Y value |
| TypeCatalog.EntryMatchIds | src/lib/quizData.ts:187-188 | every entry carries bestMatchId "altruistic-casual" and worstMatchId "analytical-stoic" |
| TypeCatalog.OverridesFilled | src/lib/quizData.ts:84-160 | no name and no visual field in the override tables is empty; this row also covers the constants `UniqueCharacters` and `CharacterVisuals` |
| TypeCatalog.VisualFilled | src/lib/quizData.ts:172 | a pair's visual design, override or default, has every field non-empty; this row also covers the constant `DefaultVisual` |
| TypeCatalog.EntryOverridesFilled | src/lib/quizData.ts:172-192 | an entry's character name and every field of its visual are non-empty, with or without an override |
| TypeCatalog.EntryNarratives | src/lib/quizData.ts:180-185 | each narrative has its fixed number of slots (4, 2, 2, 4, 4, 2) and every slot is non-empty text |
| TypeCatalog.Catalog | src/lib/quizData.ts:162-194 | the finished catalog as a value; `TypeCatalog.CatalogLookup` and `TypeCatalog.CatalogKeysAreIds` state its contents, and `TypeCatalog.BuildCatalog` that the loop produces it |
| TypeCatalog.CatalogLookup | src/lib/quizData.ts:162-194 | every pair's key is in the catalog and holds that pair's entry |
| TypeCatalog.CatalogKeysAreIds | src/lib/quizData.ts:162-194 | every catalog key is the id of its entry and is composed from that entry's coordinate |
| TypeCatalog.FillStep | src/lib/quizData.ts:166-192 | at each inner step the key is new, and storing the entry keeps "exactly the pairs visited so far are stored, each with its entry" |
| TypeCatalog.RowDone | src/lib/quizData.ts:165-193 | finishing one X row is starting the next |
| TypeCatalog.FilledIsTabulation | src/lib/quizData.ts:162-194 | once all rows are stored, the record equals the tabulation of every pair's key to its entry |
| TypeCatalog.FillRow | src/lib/quizData.ts:166-193 | the inner loop adds exactly the six entries of its row, under their keys, and grows the record by six |
| TypeCatalog.BuildCatalog | src/lib/quizData.ts:162-194 | the nested loop produces exactly `Catalog()`, a fixed value, with 6 × 6 = 36 entries |
| QuestionBank.ValueQuestionsWellFormed | src/lib/quizData.ts:198-209 | questions 1-12 are numbered in order, weights are in {-2,-1,1,2}, no trait is listed twice, and no question is weightless |
| QuestionBank.ApproachQuestionsWellFormed | src/lib/quizData.ts:212-224 | the same for questions 13-25 |
| QuestionBank.QuestionTableWellFormed | src/lib/quizData.ts:196-225 | the table has 25 questions, numbered 1-25 in order, each well formed; this row also covers the constant `Questions` |
| QuestionBank.WeightKeysOnAxes | src/lib/quizData.ts:196-225 | every weighted trait is a member of its axis list; the closed axis datatypes already enforce this, and the lemma only records it |
| Scoring.ScoreOf | src/components/QuizComponent.tsx:36 | a missing score read as 0, also at lines 41, 70 and 81; `Scoring.AccumulateScore` and `Resolver.ArgMax` state its use |
| Scoring.Accumulate | src/components/QuizComponent.tsx:35-42 | one answer's update of a score table; `Scoring.AccumulateKeys`, `Scoring.AccumulateScore` and `Scoring.AccumulateEffect` state its effect |
| Scoring.AccumulateKeys | src/components/QuizComponent.tsx:31-42 | after an answer the traits with an entry are the old ones plus the weighted ones |
| Scoring.AccumulateScore | src/components/QuizComponent.tsx:35-42 | every trait's score (missing = 0) grows by its total weight times the answer |
| Scoring.AccumulateClosedForm | src/components/QuizComponent.tsx:31-42 | the entry-by-entry update equals the table "old traits plus weighted ones, each old score + weight × value" |
| Scoring.AccumulateEffect | src/components/QuizComponent.tsx:35-42 | with distinct keys, each weighted trait becomes old (or 0) + weight × value, and every other trait keeps its entry or absence and its score |
| Scoring.AccumulateNothing | src/components/QuizComponent.tsx:35-42 | an axis with no weights keeps its score table unchanged |
| Scoring.AccumulateZero | src/components/QuizComponent.tsx:35-42 | answering 0 changes no score |
| Scoring.AccumulateLinear | src/components/QuizComponent.tsx:35-42 | answering v and then w with the same weights equals answering v + w once |
| Scoring.AccumulateCommutes | src/components/QuizComponent.tsx:35-42 | answers to two questions give the same table in either order |
| Scoring.AddWeighted | src/components/QuizComponent.tsx:35-37 | the `forEach` update loop computes the accumulated table |
| Quiz.LikertRange | src/components/QuizComponent.tsx:9-15 | the offered answers are exactly -2..2, in increasing order; this row also covers the constant `LikertValues` |
| Quiz.Valid | src/components/QuizComponent.tsx:18-63 | an invariant of the reachable sessions; `Quiz.StartValid`, `Quiz.AnswerStep`, `Quiz.BackStep` and `Quiz.Replay` state that they are reached and kept |
| Quiz.Answer | src/components/QuizComponent.tsx:25-53 | `handleLevelSelect` on session values; `Quiz.AnswerStep` and `Quiz.AnswerScores` state its effect |
| Quiz.GoBack | src/components/QuizComponent.tsx:55-63 | `handleBack` on session values; `Quiz.BackStep` and `Quiz.BackUndoesAnswer` state its effect |
| Quiz.Start | src/components/QuizComponent.tsx:18-23 | the `useState` initial values; `Quiz.StartValid` states them and their validity |
| Quiz.StartValid | src/components/QuizComponent.tsx:18-23 | the initial session is at question 0 with an empty history, and is valid |
| Quiz.AnswerStep | src/components/QuizComponent.tsx:25-53 | an answer pushes exactly the pre-answer scores, updates weighted traits by weight × value, leaves others alone, advances unless on the last question (then finishing), and keeps history length = index |
| Quiz.AnswerScores | src/components/QuizComponent.tsx:31-45 | every trait's score after an answer is its old score plus its total weight times the answer; entries grow by the weighted traits |
| Quiz.BackStep | src/components/QuizComponent.tsx:55-63 | back does nothing on question 0; otherwise it restores the top snapshot, pops it, decrements the index, and keeps validity |
| Quiz.BackUndoesAnswer | src/components/QuizComponent.tsx:25-63 | answering and then going back restores index, history and both score tables exactly |
| Quiz.AnswerQuestionFourExample | src/lib/quizData.ts:201 | answering question 4 with 2 adds 4 to Analytical, takes 2 from Romantic, and changes nothing else |
| Quiz.Replay | src/components/QuizComponent.tsx:25-53 | after k ≤ 25 answers the session is valid, at question min(k, 24), and finishing exactly when k = 25 |
| Quiz.ReplayStep | src/components/QuizComponent.tsx:31-45 | one more answer adds that question's weight times the answer to every trait's score |
| Quiz.ReplayScoresX | src/components/QuizComponent.tsx:31-45 | after any answers each X score is the sum of weight × answer over the questions answered |
| Quiz.ReplayScoresY | src/components/QuizComponent.tsx:31-45 | after any answers each Y score is the sum of weight × answer over the questions answered |
| Quiz.ReplayScores | src/components/QuizComponent.tsx:29-45 | after any answers, one snapshot per answer has been pushed and each score is the sum of weight × answer over the questions answered |
| Quiz.ReplayHistory | src/components/QuizComponent.tsx:29 | after any answers, snapshot i holds the scores as they were after the first i answers |
| Quiz.ReplayBack | src/components/QuizComponent.tsx:55-63 | one more answer followed by back gives the shorter run's session |
| Quiz.QuizSession.constructor | src/components/QuizComponent.tsx:18-23 | the fields start as the initial session |
| Quiz.QuizSession.Submit | src/components/QuizComponent.tsx:25-53 | the fields become the answered session and stay valid |
| Quiz.QuizSession.Back | src/components/QuizComponent.tsx:55-63 | the fields become the session after back and stay valid |
| Quiz.QuizSession.ResultType | src/components/QuizComponent.tsx:65-90 | returns the resolved type of the current scores |
| Resolver.ArgMax | src/components/QuizComponent.tsx:67-86 | the chosen position has a maximal score and every earlier position a strictly smaller one |
| Resolver.FirstMaxUnique | src/components/QuizComponent.tsx:67-86 | only one position is first-maximal |
| Resolver.TiesPickFirst | src/components/QuizComponent.tsx:67-75 | when all scores are equal the first declared value is chosen |
| Resolver.SelectFirstMax | src/components/QuizComponent.tsx:67-75 | the running-maximum scan from -Infinity with a strict > picks the first-maximal position |
| Resolver.ResultId | src/components/QuizComponent.tsx:88 | the key of the first-maximal X and Y values; `Resolver.ResultTypeIsFirstMaxPair` states it |
| Resolver.CatalogGet | src/components/QuizComponent.tsx:89 | `personalityTypes[id]`, absent for a key not in the catalog; `Resolver.CatalogGetHits` and `Resolver.CatalogGetKey` state its hits |
| Resolver.ResultType | src/components/QuizComponent.tsx:88-89 | the lookup with its fallback; `Resolver.ResultTypeIsFirstMaxPair` and `Resolver.NoScoresGiveRomanticTraditional` and `Resolver.ZeroScoresGiveRomanticTraditional` state its result |
| Resolver.CatalogGetHits | src/components/QuizComponent.tsx:89 | looking up any pair's key finds that pair's entry |
| Resolver.CatalogGetKey | src/components/QuizComponent.tsx:88-89 | looking up any pair's key finds an entry whose id is that key |
| Resolver.FallbackType | src/components/QuizComponent.tsx:89 | `personalityTypes["romantic-traditional"]`; `Resolver.RomanticTraditionalId` shows the key is (Romantic, Traditional)'s, so the entry exists |
| Resolver.RomanticTraditionalId | src/components/QuizComponent.tsx:89 | the literal fallback key is the key of (Romantic, Traditional) |
| Resolver.ResultTypeIsFirstMaxPair | src/components/QuizComponent.tsx:65-90 | the composed id is always in the catalog, so the fallback is never taken, and the result is the entry of the first-maximal X and Y values |
| Resolver.NoScoresGiveRomanticTraditional | src/components/QuizComponent.tsx:65-90 | with no scores the result id is "romantic-traditional" |
| Resolver.ZeroScoresGiveRomanticTraditional | src/components/QuizComponent.tsx:65-90 | with every score zero, entry or not (as after answering only 0), the result id is "romantic-traditional" |
| Resolver.GetResultType | src/components/QuizComponent.tsx:65-90 | the two scans, key composition and lookup with fallback give the resolved type |
| Compatibility.IndexOf | src/components/ResultComponent.tsx:17-18 | `indexOf` gives -1 exactly when the value is absent, and otherwise its first position |
| Compatibility.BestKey | src/components/ResultComponent.tsx:17-22 | the best partner's key; `Compatibility.PartnersAreRotations` states it |
| Compatibility.WorstKey | src/components/ResultComponent.tsx:17-25 | the worst partner's key; `Compatibility.PartnersAreRotations` states it |
| Compatibility.FindCompatibility | src/components/ResultComponent.tsx:16-32 | the best and worst lookups; `Compatibility.PartnersAreRotations` and `Compatibility.PartnersAreDistinct` state them |
| Compatibility.IndexOfAxis | src/components/ResultComponent.tsx:17-18 | on an axis list, `indexOf` finds the value's declared position |
| Compatibility.PartnersAreRotations | src/components/ResultComponent.tsx:16-32 | for a result at positions (i, j), best is the catalog lookup of the pair at ((i+3)%6, (j+2)%6) and worst that of the pair at ((i+1)%6, (j+4)%6); with `Resolver.CatalogGetHits` each gives that pair's entry |
| Compatibility.PartnersAreDistinct | src/components/ResultComponent.tsx:21-31 | best and worst are defined, differ from each other, and differ from the result's own type |
| Compatibility.RotationsDiffer | src/components/ResultComponent.tsx:21-25 | offsets 3, 1 and 0 on a cycle of six give three different positions |

## Left out

- Rendering, animation, the progress bar and the result page's layout are presentation and are not modelled.
- The 2-second timer and the `showResult` flag are timing and display. The model stops at the `finishing` state.
- Share buttons, the report generator (an external text-generation call), the other pages and the avatar components are browser I/O, foreign calls or drawing.
- `getFallbackImage` and the `imagePath` field are static asset paths used only for rendering, so the record has no such field.
- The question texts and the labels and sizes of the answer buttons are display content. A question keeps its number and weights.
- The Japanese prose of the six narrative templates is content. A narrative keeps its template tag and its interpolated values, in order.
- The override tables are association lists searched first-match. A JavaScript object literal keeps the last value of a repeated key, but each source table lists its 36 keys once, so the two agree. The model does not prove that the keys are distinct or that all 36 are listed, so it does not show that the fallback name and the default visual are never used.
- TypeCatalog.CharacterNameRule does not name which listed entry wins, only that the name is one listed under the key. With each key listed once there is only one.
- TypeCatalog.VisualRule has the same limit: it does not name which listed entry wins.
- Axes.ToLower lowercases ASCII letters only, while JavaScript's `toLowerCase` covers all of Unicode. Every key it is applied to is ASCII.
- The `visual` field patched on after construction is modelled as a field of the record set in the same step.
- Quiz.QuizSession.Submit requires not finishing, because the answer buttons are not shown while finishing.
- Quiz.QuizSession.Back requires not finishing, for the same reason: the back button is not shown while finishing.
- Answer values are integers. `handleLevelSelect` takes any JavaScript number, but a fractional or non-finite value cannot be expressed in the model.
- `Scoring.AddWeighted` follows the order in which entries are written in each weight literal. JavaScript's object-key order is not modelled beyond that, and no question lists a trait twice.
- The end-to-end run that answers +2 to every question is not proved. The model gives the sums in general (`Quiz.ReplayScores`) but does not evaluate them for that run.
