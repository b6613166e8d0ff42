# RBEM emission engines in Dafny

RBEM (rule-based emission model) classifies a part-of-speech tagged sentence
by matching stored patterns against it. Every match emits a value onto the
sentence positions around the match. The emission fades with distance. Stop
patterns block it. Continuators lift a stop. Amplifiers, attenuators and flips
rescale or negate what has already been emitted. The emissions are then summed
into a score.

This project models two engines of the repository:

- **`RBEMEmotion`** (Java). Sixteen pattern types form a model of
  `type → first index → length → full index → pattern`. `classify` scores a
  sentence on four emotion axes: joySadness, fearAnger, trustDisgust and
  surpriseAnticipation. It does this in six steps:
  1. lower-case the sentence into (word, tag) pairs;
  2. scan every pattern type, with `_` wildcards and `*` gaps;
  3. drop matches subsumed by a match of another type;
  4. place stops and let continuators remove them;
  5. run the eight emotion walks, then objectives (cancel), amplifiers,
     attenuators, right flips and left flips, on a 4 × n emission array;
  6. sum each axis, and optionally divide by the largest absolute sum.
- **`EmissionMiner`** (PHP). One polarity axis and eight pattern types, each
  stored as an ordered index `key → length → full index → pattern`.
  `polarizeSentence` does the following:
  1. normalises the tokens;
  2. scans each type, keeping only the longest match per position;
  3. records the matches in a hash index, `key → (length, first-member flag)`;
  4. removes subsumed keys across the eight hash indexes;
  5. places stops and continues;
  6. runs the positive, negative, amplifier, attenuator, right-flip and
     left-flip stages on an emission array;
  7. returns the label "positive", "negative" or "neutral" from the total,
     together with the per-token polarities when asked.

Modules:

- **Shared:** `Wrappers` (Option/Result), `Assoc` (ordered association lists
  for PHP arrays), `Text` (lower-casing and trimming).
- **Emotion engine:** `EmotionMatch`, `EmotionEngine`, `EmotionSubsumption`,
  `EmotionScoring`.
- **Polarity engine:** `PolarityMatch`, `PolarityLexicon`, `PolarityScan`,
  `PolaritySubsumption`, `PolarityWalk`, `PolarityMiner`.

Stateful code is imperative Dafny. The engines are classes with the model as a
field. The emission buffers are arrays. The scan and aggregation loops are
methods. Each method is proved against a specification function, and the
source's promises are proved about those functions as lemmas.

The decay `exp(-j)` is a parameter `decay: nat -> real`. The lemmas that need
its shape require `IsDecay`: `decay(0) == 1` and `0 < decay(j) < 1` for j ≥ 1.

Source cells in the table are paths relative to the repository root.

## Model

| member | source | states |
|---|---|---|
| Text.ToLowerIdempotent | Java/src/main/java/nl/et4it/RBEMEmotion.java:115-116 | lower-casing an already lower-cased word changes nothing |
| Text.TrimSlice | PHP/RBEM.php:30 | trimming removes exactly a white-space prefix and a white-space suffix: the result is a slice of the input with only white space outside it |
| Text.TrimTrimmed | PHP/RBEM.php:30 | a string that neither starts nor ends with white space is left unchanged by trim |
| Text.TrimIdempotent | PHP/RBEM.php:30 | trimming twice is the same as trimming once |
| Text.PhpNormalizeIdempotent | PHP/RBEM.php:458-461 | `strtolower(trim(…))` applied to an already normalised token changes nothing |
| Text.Trim | Java/src/main/java/nl/et4it/RBEMEmotion.java:1310-1317 | the trimmed string neither starts nor ends with white space |
| EmotionMatch.Match | Java/src/main/java/nl/et4it/RBEMEmotion.java:140-236 | a failed match returns end -1; a successful match ends between offset-1 and the last sentence position; a non-empty pattern below the 500 cap ends at or after its offset |
| EmotionMatch.MatchBase | Java/src/main/java/nl/et4it/RBEMEmotion.java:142-145 | an exhausted pattern, or an offset beyond 500, succeeds with end offset-1 |
| EmotionMatch.MatchEmptySentence | Java/src/main/java/nl/et4it/RBEMEmotion.java:149-152 | a non-empty pattern never matches an exhausted sentence |
| EmotionMatch.AnyPairConsumesOne | Java/src/main/java/nl/et4it/RBEMEmotion.java:212-216 | the pair (_, _) consumes exactly one sentence member, whatever it is |
| EmotionMatch.TagOnlyStep | Java/src/main/java/nl/et4it/RBEMEmotion.java:217-224 | a (_, tag) member matches one sentence member if and only if its tag is equal |
| EmotionMatch.StarLastFails | Java/src/main/java/nl/et4it/RBEMEmotion.java:166-172 | a pattern that ends in the `*` gap never matches |
| EmotionMatch.StarNeedsTwoPositions | Java/src/main/java/nl/et4it/RBEMEmotion.java:166-172 | a leading `*` cannot match a sentence of fewer than two members |
| EmotionMatch.LiteralMatch | Java/src/main/java/nl/et4it/RBEMEmotion.java:225-233 | a wildcard-free pattern matches if and only if it is a prefix of the sentence, ending at offset + length - 1 |
| EmotionMatch.MatchExtends | Java/src/main/java/nl/et4it/RBEMEmotion.java:140-236 | extending the sentence never changes a successful match |
| EmotionEngine.Insert | Java/src/main/java/nl/et4it/RBEMEmotion.java:1308-1333 | after storing, the pattern is found under its first index, its length and its full index |
| EmotionEngine.InsertKeeps | Java/src/main/java/nl/et4it/RBEMEmotion.java:1319-1333 | storing a pattern keeps every other stored entry unchanged |
| EmotionEngine.InsertAddsOne | Java/src/main/java/nl/et4it/RBEMEmotion.java:1319-1333 | storing a pattern adds no entry besides its own |
| EmotionEngine.InsertValid | Java/src/main/java/nl/et4it/RBEMEmotion.java:1308-1333 | storing keeps every pattern filed under its own first index, length and full index |
| EmotionEngine.IsAllowed | Java/src/main/java/nl/et4it/RBEMEmotion.java:1294-1306 | the type is accepted if and only if it is one of the sixteen names |
| EmotionEngine.ComputeTotalIndex | Java/src/main/java/nl/et4it/RBEMEmotion.java:1313-1317 | the loop builds the concatenation of every member's trimmed lower-cased word and trimmed tag |
| EmotionEngine.Store | Java/src/main/java/nl/et4it/RBEMEmotion.java:1319-1333 | the initialise-then-put sequence yields the lexicon with the pattern inserted |
| EmotionEngine.RBEMEmotion.constructor | Java/src/main/java/nl/et4it/RBEMEmotion.java:38-92 | sixteen empty pattern indexes and emission range 3 |
| EmotionEngine.RBEMEmotion.AddPattern | Java/src/main/java/nl/et4it/RBEMEmotion.java:1292-1338 | returns true if and only if the type is allowed and the pattern is non-empty; then exactly that type's index gains the pattern, otherwise the model is unchanged |
| EmotionEngine.RBEMEmotion.MakeVector | Java/src/main/java/nl/et4it/RBEMEmotion.java:104-120 | fails if and only if the word and tag counts differ; otherwise member i is (lower-cased word i, tag i) |
| EmotionEngine.ScanLength | Java/src/main/java/nl/et4it/RBEMEmotion.java:276-292 | reports exactly the patterns of one length group that match at the position, each once |
| EmotionEngine.TryPattern | Java/src/main/java/nl/et4it/RBEMEmotion.java:279-291 | trying one more pattern adds it exactly when it matches, keeping every report unique |
| EmotionEngine.ScanOneLength | Java/src/main/java/nl/et4it/RBEMEmotion.java:271-293 | after one more length, the reports cover exactly the matching patterns of the lengths done |
| EmotionEngine.ScanGroup | Java/src/main/java/nl/et4it/RBEMEmotion.java:267-294 | reports exactly the patterns filed under one first index that match at the position, each once |
| EmotionEngine.RBEMEmotion.MatchPatterns | Java/src/main/java/nl/et4it/RBEMEmotion.java:250-330 | the hits are ordered by start and hold every match once per key (word+tag and `_`+tag) under which it is filed, and nothing else; every centre lies inside the sentence |
| EmotionEngine.ScanStep | Java/src/main/java/nl/et4it/RBEMEmotion.java:259-328 | appending one position's regular and wildcard hits keeps the ordering and the exact hit counts |
| EmotionEngine.ScannedMeans | Java/src/main/java/nl/et4it/RBEMEmotion.java:250-330 | a hit is reported if and only if its pattern is filed under a key of its start member and matches there with that end |
| EmotionEngine.HitCentred | Java/src/main/java/nl/et4it/RBEMEmotion.java:899-900 | the centre floor((start+end)/2) of every match lies inside the sentence |
| EmotionEngine.RBEMEmotion.MatchCategory | Java/src/main/java/nl/et4it/RBEMEmotion.java:838-855 | one pattern type's hit list is its scan |
| EmotionEngine.RBEMEmotion.MatchAll | Java/src/main/java/nl/et4it/RBEMEmotion.java:838-855 | the sixteen hit lists are the sixteen scans, all centred inside the sentence |
| EmotionEngine.RBEMEmotion.Classify | Java/src/main/java/nl/et4it/RBEMEmotion.java:820-1271 | fails if and only if the token and tag counts differ; otherwise the scores are the classification of the sixteen scans of the lower-cased sentence |
| EmotionEngine.ScoreMatches | Java/src/main/java/nl/et4it/RBEMEmotion.java:838-1270 | subsumption, stops, continuators, the thirteen stages and aggregation compute exactly the specified classification |
| EmotionEngine.Classification | Java/src/main/java/nl/et4it/RBEMEmotion.java:1250-1271 | the result has exactly the four axis names as keys |
| EmotionEngine.FilteredCentred | Java/src/main/java/nl/et4it/RBEMEmotion.java:838-855 | removing subsumed hits keeps every centre inside the sentence |
| EmotionSubsumption.IsNotSubsumed | Java/src/main/java/nl/et4it/RBEMEmotion.java:344-365 | false if and only if some listed hit starts no later and ends strictly later |
| EmotionSubsumption.KeepNotSubsumed | Java/src/main/java/nl/et4it/RBEMEmotion.java:407-412 | the filter loop keeps exactly the specified survivors, in order |
| EmotionSubsumption.KeepMembers | Java/src/main/java/nl/et4it/RBEMEmotion.java:407-412 | a hit survives if and only if it was in the list and nothing in the comparison list subsumes it |
| EmotionSubsumption.KeepIsSublist | Java/src/main/java/nl/et4it/RBEMEmotion.java:407-412 | the survivors are an order-preserving sublist of the input |
| EmotionSubsumption.RemoveSubsumed | Java/src/main/java/nl/et4it/RBEMEmotion.java:370-810 | the sixteen filtered lists are the specified ones, and the amplifier and attenuator lists have grown by the appends |
| EmotionSubsumption.ComparisonsCoverAll | Java/src/main/java/nl/et4it/RBEMEmotion.java:440-789 | from the third block on, the aliased comparison list holds exactly the hits of all sixteen types |
| EmotionSubsumption.GrownAmplifiersIsAll | Java/src/main/java/nl/et4it/RBEMEmotion.java:415-789 | the aliased amplifier list ends up holding every hit of every type |
| EmotionSubsumption.FilteredAmplifiers | Java/src/main/java/nl/et4it/RBEMEmotion.java:391-413 | an amplifier survives if and only if no attenuator or later-type hit subsumes it |
| EmotionSubsumption.FilteredAttenuators | Java/src/main/java/nl/et4it/RBEMEmotion.java:415-438 | the attenuator result holds the attenuators and the appended later-type hits that no amplifier or later-type hit subsumes |
| EmotionSubsumption.FilteredLater | Java/src/main/java/nl/et4it/RBEMEmotion.java:440-789 | for the fourteen later types, a hit survives if and only if no hit of any type subsumes it |
| EmotionSubsumption.FilteredWithinAll | Java/src/main/java/nl/et4it/RBEMEmotion.java:370-810 | filtering never invents a hit |
| EmotionScoring.StartsMembers | Java/src/main/java/nl/et4it/RBEMEmotion.java:858-871 | a position is a stop if and only if some left flip or stop hit starts there |
| EmotionScoring.DeriveStops | Java/src/main/java/nl/et4it/RBEMEmotion.java:858-871 | the loops compute the set of start positions of left flips and stops |
| EmotionScoring.ContinuatorRemovesNearest | Java/src/main/java/nl/et4it/RBEMEmotion.java:873-893 | a continuator removes at most one stop, and only the nearest one to its left within the range; it removes one whenever one is in reach |
| EmotionScoring.RemoveNearest | Java/src/main/java/nl/et4it/RBEMEmotion.java:876-892 | one continuator's search and removal computes the specified stop set |
| EmotionScoring.ApplyContinuators | Java/src/main/java/nl/et4it/RBEMEmotion.java:873-893 | the stop set after all continuators, in order |
| EmotionScoring.WalkRows | Java/src/main/java/nl/et4it/RBEMEmotion.java:895-1248 | one walk changes each cell only as its effect prescribes for a reached position |
| EmotionScoring.Zeros | Java/src/main/java/nl/et4it/RBEMEmotion.java:826-832 | four rows of n zeros |
| EmotionScoring.RightStopIsLastReached | Java/src/main/java/nl/et4it/RBEMEmotion.java:913-916 | nothing beyond a stop to the right of the centre is reached; the stop itself is reached if open |
| EmotionScoring.LeftStopIsLastReached | Java/src/main/java/nl/et4it/RBEMEmotion.java:913-916 | nothing beyond a stop to the left of the centre is reached; the stop itself is reached if open |
| EmotionScoring.CentreStop | Java/src/main/java/nl/et4it/RBEMEmotion.java:905-916 | a stop at the centre confines the walk to the centre, and a left flip then changes nothing |
| EmotionScoring.CancelZeroes | Java/src/main/java/nl/et4it/RBEMEmotion.java:1111-1139 | an objective zeroes every axis at every position it reaches |
| EmotionScoring.ModifiersStayInRange | Java/src/main/java/nl/et4it/RBEMEmotion.java:1141-1248 | amplifiers, attenuators and flips never touch a position farther than the emission range from their centre |
| EmotionScoring.RightFlipNegatesCentre | Java/src/main/java/nl/et4it/RBEMEmotion.java:1203-1224 | a right flip negates the emissions at its own centre |
| EmotionScoring.AttenuatorZeroesCentre | Java/src/main/java/nl/et4it/RBEMEmotion.java:1172-1201 | an attenuator multiplies its centre by 1 - e^0, so zeroes it |
| EmotionScoring.EmitKeepsOtherAxes | Java/src/main/java/nl/et4it/RBEMEmotion.java:895-1109 | an emotion emission touches only its own axis |
| EmotionScoring.UpdateColumn | Java/src/main/java/nl/et4it/RBEMEmotion.java:1121-1128 | one step changes one position on the axes of the effect and nothing else |
| EmotionScoring.RunWalk | Java/src/main/java/nl/et4it/RBEMEmotion.java:899-918 | the j-loop of one match leaves each cell as the walk specification prescribes |
| EmotionScoring.RunStage | Java/src/main/java/nl/et4it/RBEMEmotion.java:895-919 | one stage's loop over its hits computes the specified rows |
| EmotionScoring.ZeroEmissions | Java/src/main/java/nl/et4it/RBEMEmotion.java:826-832 | a fresh 4 × n array of zeros |
| EmotionScoring.EmitEmotions | Java/src/main/java/nl/et4it/RBEMEmotion.java:895-1109 | the eight emotion stages, in source order |
| EmotionScoring.EmitModifiers | Java/src/main/java/nl/et4it/RBEMEmotion.java:1111-1248 | objectives, amplifiers, attenuators, right flips and left flips, in source order |
| EmotionScoring.EmitAll | Java/src/main/java/nl/et4it/RBEMEmotion.java:895-1248 | all thirteen stages from zero emissions compute the specified emissions |
| EmotionScoring.MaxAbs | Java/src/main/java/nl/et4it/RBEMEmotion.java:1252-1262 | the maximum is non-negative, bounds every absolute score, and is attained unless it is 0 |
| EmotionScoring.MaxAbsAppend | Java/src/main/java/nl/et4it/RBEMEmotion.java:1260-1261 | the running maximum is updated only by a strictly larger absolute score |
| EmotionScoring.SumRow | Java/src/main/java/nl/et4it/RBEMEmotion.java:1255-1257 | the inner loop sums one axis row |
| EmotionScoring.AddAxis | Java/src/main/java/nl/et4it/RBEMEmotion.java:1253-1262 | one axis iteration appends its sum and keeps the running maximum |
| EmotionScoring.AxisScores | Java/src/main/java/nl/et4it/RBEMEmotion.java:1250-1262 | the four axis sums and the largest absolute sum |
| EmotionScoring.Aggregate | Java/src/main/java/nl/et4it/RBEMEmotion.java:1250-1270 | the score map is the specified aggregation of the emission rows |
| EmotionScoring.Scale | Java/src/main/java/nl/et4it/RBEMEmotion.java:1265-1268 | with normalisation and a non-zero maximum every sum is divided by it; otherwise the sums are kept |
| EmotionScoring.NormalizedBounds | Java/src/main/java/nl/et4it/RBEMEmotion.java:1265-1268 | normalised scores lie in [-1, 1] and one of them has absolute value 1; without normalisation, or with maximum 0, nothing changes |
| EmotionScoring.ScoresBounded | Java/src/main/java/nl/et4it/RBEMEmotion.java:1250-1270 | normalised axis scores lie in [-1, 1] and reach ±1 when some axis is non-zero; unnormalised scores are the raw axis sums |
| PolarityMatch.At | PHP/RBEM.php:230-238 | an in-range read yields the member; an out-of-range read yields the empty dummy ('', '') |
| PolarityMatch.Match | PHP/RBEM.php:173-283 | failure gives end -1; success ends at or after offset-1 and within one past the sentence |
| PolarityMatch.PatternExhausted | PHP/RBEM.php:174-178 | an exhausted pattern matches with end offset-1 |
| PolarityMatch.SentenceExhausted | PHP/RBEM.php:179-183 | a pattern with members left fails on an exhausted sentence |
| PolarityMatch.TagOnlyStep | PHP/RBEM.php:215-228 | a (_, tag) member matches one position if and only if the tags are equal |
| PolarityMatch.SkipOneStep | PHP/RBEM.php:198-213 | (_, *) skips one position and then requires the next pattern member to equal the next sentence member |
| PolarityMatch.StarMatchesNothing | PHP/RBEM.php:240-248 | when the current sentence member equals the pattern member after `*`, the `*` matches zero positions and both are consumed |
| PolarityMatch.StarMatchesOne | PHP/RBEM.php:250-264 | `*` skips one position when the member after it matches |
| PolarityMatch.StarAbsorbs | PHP/RBEM.php:250-258 | otherwise `*` consumes a position and tries again |
| PolarityMatch.LiteralMatch | PHP/RBEM.php:266-281 | a wildcard-free remainder matches if and only if it equals the sentence slice, ending after its last member |
| PolarityLexicon.TypeOf | PHP/RBEM.php:68-157 | a type name is filed if and only if it is one of the eight names |
| PolarityLexicon.InsertValid | PHP/RBEM.php:69-79 | adding a pattern keeps every key, length and full index unique |
| PolarityLexicon.InsertLookup | PHP/RBEM.php:69-79 | after adding, the new pattern is found under its key, length and full index, and every other lookup is unchanged |
| PolarityLexicon.Prepare | PHP/RBEM.php:44-66 | stores the lower-cased trimmed tokens with the tags as given, and computes the first key and the full index |
| PolarityLexicon.StoredKeys | PHP/RBEM.php:48-66 | the keys computed from the stored members equal those computed from the raw pattern |
| PolarityScan.Try | PHP/RBEM.php:311-345 | a found pattern starts at the position and ends inside the sentence; a multi-member match needs a next position and spans at most the emission range |
| PolarityScan.MatchShape | PHP/RBEM.php:311-345 | single-member matches sit on their position; longer ones are a successful match from the next position; their floor/ceil centre bounds lie inside the sentence |
| PolarityScan.LongestAt | PHP/RBEM.php:396-405 | the selected candidate is the first one of strictly greatest length; none is selected when all have length 0 |
| PolarityScan.KeptAt | PHP/RBEM.php:293-445 | the match kept at a position starts there and is that pattern's match |
| PolarityScan.CollectGroup | PHP/RBEM.php:310-346 | trying the patterns of one length keeps the specified candidate list |
| PolarityScan.CollectLengths | PHP/RBEM.php:308-347 | trying every length of one key keeps the specified candidate list |
| PolarityScan.CollectAt | PHP/RBEM.php:300-394 | the regular key then the `_`+tag key give the specified candidates at a position |
| PolarityScan.SelectLongest | PHP/RBEM.php:396-405 | the selection loop picks the specified longest candidate |
| PolarityScan.RecordMembers | PHP/RBEM.php:407-441 | the hash-index loop records the specified entries |
| PolarityScan.PickMatch | PHP/RBEM.php:298-442 | one position's candidate collection and selection |
| PolarityScan.ScanNext | PHP/RBEM.php:298-442 | one more position appends its kept match, if any, and records it in the hash index |
| PolarityScan.MatchPatterns | PHP/RBEM.php:293-445 | the matches and the hash index are those of the scan over the whole sentence |
| PolarityScan.CandidatesSound | PHP/RBEM.php:306-394 | every candidate is a successful match of a pattern filed under the position's key or its `_`+tag key |
| PolarityScan.LongestIsFirstMaximal | PHP/RBEM.php:396-405 | the kept match is a sound candidate of maximal length, strictly longer than every earlier candidate |
| PolarityScan.ScanKept | PHP/RBEM.php:293-445 | every reported match is the one kept at its start position |
| PolarityScan.ScanOrdered | PHP/RBEM.php:298-442 | reported matches have strictly increasing starts, so at most one per position |
| PolaritySubsumption.Survivors | PHP/RBEM.php:810-1162 | each surviving hash index is a subset of the original one with unchanged entries |
| PolaritySubsumption.RemoveSubsumed | PHP/RBEM.php:810-1162 | the 28 comparison blocks compute the specified survivors |
| PolaritySubsumption.PassOver | PHP/RBEM.php:813-898 | one index compared against every later index, key by key |
| PolaritySubsumption.CompareKey | PHP/RBEM.php:815-897 | one key compared against the later indexes; no other key changes |
| PolaritySubsumption.RemovedOnlyByGreater | PHP/RBEM.php:810-1162 | a key is removed from an index only if another index holds it with a greater (length, first-member flag) record, compared length first |
| PolaritySubsumption.SurvivorsAgree | PHP/RBEM.php:810-1162 | a key surviving in two indexes has the same count in both |
| PolaritySubsumption.SurvivorsProperties | PHP/RBEM.php:810-1162 | a key removed from an index was beaten by a greater count elsewhere; a key found in only one index survives; keys surviving twice agree |
| PolarityWalk.StageIdle | PHP/RBEM.php:538-543 | a stage in which no match has its first member's key left, as a first member, in the hash index changes nothing |
| PolarityWalk.StageKeepsZeros | PHP/RBEM.php:627-752 | modifier stages on all-zero emissions leave them zero |
| PolarityWalk.ActiveStartsMembers | PHP/RBEM.php:483-503 | a position is a stop if and only if a surviving left flip or stop match starts there |
| PolarityWalk.ContinuedTables | PHP/RBEM.php:505-535 | the continue table is exactly the surviving continuator starts, and continuators only remove stops |
| PolarityWalk.ContinuatorRemovesNearest | PHP/RBEM.php:510-531 | each continuator removes at most one stop, only the nearest one to its left in range, and one whenever one is in reach |
| PolarityWalk.RightFlipReach | PHP/RBEM.php:703-726 | a right flip negates exactly the positions from the ceiling of its centre rightwards, within the range, up to and including the first stop past the centre |
| PolarityWalk.LeftFlipReach | PHP/RBEM.php:728-751 | a left flip negates exactly the positions from the floor of its centre leftwards, within the range, up to and including the first stop past the centre |
| PolarityWalk.ScaleReach | PHP/RBEM.php:627-701 | amplifiers and attenuators rescale exactly the reached positions on each side by the factor for that distance, leaving all others |
| PolarityWalk.EmitGated | PHP/RBEM.php:537-580 | a sentiment emission changes only positions not blocked by an earlier stop |
| PolarityWalk.CentreStop | PHP/RBEM.php:570-576 | a stop on a single-position match confines its emission to that position |
| PolarityWalk.ContinueDoubles | PHP/RBEM.php:553-567 | a continue doubles the emission on its side, and the doubled value carries into the right-hand write |
| PolarityWalk.StepAt | PHP/RBEM.php:548-575 | one j-step on the array equals the specified step |
| PolarityWalk.EmitAt | PHP/RBEM.php:548-575 | one sentiment step on the array equals the specified step |
| PolarityWalk.ScaleAt | PHP/RBEM.php:639-660 | one scaling step on the array equals the specified step |
| PolarityWalk.WalkAt | PHP/RBEM.php:543-578 | one match's walk on the array equals the specified walk |
| PolarityWalk.RunStage | PHP/RBEM.php:537-580 | one stage over its matches equals the specified stage, and reports whether any match survived subsumption |
| PolarityWalk.AddStops | PHP/RBEM.php:483-503 | the stop table gains exactly the starts of the surviving matches |
| PolarityWalk.ApplyContinues | PHP/RBEM.php:505-535 | the continuator loop computes the specified stop and continue tables |
| PolarityWalk.Totals | PHP/RBEM.php:753-764 | the sentiment is the sum of the emissions and the maximum is the largest absolute emission |
| PolarityWalk.PolarizeAll | PHP/RBEM.php:765-777 | per-token polarities are the emissions divided by the maximum, or 0 when the maximum is 0 |
| PolarityWalk.PolarizedBounded | PHP/RBEM.php:765-777 | polarities lie in [-1, 1], are all 0 when the maximum is 0, and are ±1 at a position of maximal emission |
| PolarityMiner.MakeVector | PHP/RBEM.php:20-35 | the vector holds one (lower-cased trimmed token, trimmed tag) per tag |
| PolarityMiner.NormalizedIdempotent | PHP/RBEM.php:458-461 | normalising the tokens twice equals once, and a vector built by makeVector is already normalised |
| PolarityMiner.PolarizationFacts | PHP/RBEM.php:457-788 | the label is "negative", "positive" or "neutral" exactly by the sign of the sentiment; polarities are present only when asked, one per token, in [-1, 1]; with no surviving sentiment pattern the result is neutral with zero polarities |
| PolarityMiner.FiledLookup | PHP/RBEM.php:43-157 | adding a pattern files its normalised form under its key, length and full index in exactly the index of its type, and changes no other lookup |
| PolarityMiner.NormalizeTokens | PHP/RBEM.php:458-461 | the loop normalises every token and keeps the tags |
| PolarityMiner.ScanAll | PHP/RBEM.php:469-477 | the eight scans and their hash indexes |
| PolarityMiner.MakeTables | PHP/RBEM.php:483-535 | the specified stop and continue tables |
| PolarityMiner.RunStages | PHP/RBEM.php:537-751 | the six stages compute the specified emissions; the patterns-found flag is set if and only if a positive or negative match survived |
| PolarityMiner.Summarize | PHP/RBEM.php:753-787 | the specified sentiment, polarities and label |
| PolarityMiner.EmissionMiner.constructor | PHP/RBEM.php:3-13 | eight empty indexes and emission range 4 |
| PolarityMiner.EmissionMiner.SetEmissionRange | PHP/RBEM.php:1214-1216 | sets the range and leaves every index unchanged |
| PolarityMiner.EmissionMiner.AddPattern | PHP/RBEM.php:43-157 | every index becomes the specified filing of the pattern, so only the named type's index changes |
| PolarityMiner.EmissionMiner.Store | PHP/RBEM.php:68-157 | replaces one type's index and no other |
| PolarityMiner.EmissionMiner.PolarizeSentence | PHP/RBEM.php:457-788 | the outcome is the polarization of the normalised tokens against the current indexes and range |

## Left out

- `loadModel` and `storeModel`, in both engines: these are file I/O, serialisation and caching.
- The example drivers, and Java's `classify(String, String, Boolean)`, which only splits on spaces.
- `exp(-j)` is not computed. It is the `decay` parameter, and its shape (`IsDecay`) is required where a lemma needs it.
- `round(…, 6)` in the PHP polarities is left out. Values are exact reals, not IEEE doubles, so rounding and overflow are not modelled.
- Java and PHP integer widths are not modelled: integers are unbounded.
- Lower-casing is ASCII-only. `trim` covers the characters each language strips. There is no Unicode case mapping.
- A PHP read past the end of the sentence or pattern yields null, which compares loosely equal to ''. It is modelled as the empty member ('', ''), `PolarityMatch.At`.
- PolarityMatch.Match: PHP's loose `==`/`!=` compares two numeric strings by their numeric value, so the sentence token "10" matches the pattern token "10.0" or "1e1". This is not modelled: tokens and tags are compared as exact strings, so two distinct strings never match.
- PolaritySubsumption.Survivors: the `$key1 == $key2` test on hash-index keys is likewise exact string equality. Numeric keys, which PHP turns into integers, are not modelled.
- PHP `addPattern` calls `die()` when a token trims and lower-cases to '' or '0', which `empty()` treats as empty. This happens for every type, and it becomes the `Accepted` precondition. An unknown type is a silent no-op, as modelled by `Filed`.
- Java `HashMap` and key-set iteration orders are unspecified. The Java scan is specified up to order within a start position, as exact multiset counts. PHP arrays keep insertion order and are association lists.
- The 28 unrolled PHP `removeSubsumed` blocks and the eight PHP stage blocks are loops over an index and a stage list. The sixteen Java subsumption blocks keep their aliasing, with the comparison lists threaded explicitly.
- Java's four `Double[]` emission rows are one 4 × n `array2`.
- PHP static fields are the fields of one `EmissionMiner` object.
- PHP's optional `$polarizedTokens` reference is an `Option` result. Entries beyond the sentence length in a caller's pre-existing array are not modelled.
- EmotionMatch.Match keeps the Java 500-offset cap as the constant `Cap`.
