# seppl tutor core, modelled in Dafny

seppl is a tutor for the logical analysis of argumentative texts. A learner
works on a DeepA2 item: a source text with a reconstruction of its argument
in Argdown, the reasons and conjectures quoted from the text, cue fields
(conclusion, gist, context, paraphrase), and formalizations with their
placeholder keys. Each time the learner submits input, the tutor re-scores
the item. The `SofaEvaluator` is an ordered registry of metrics that share a
cache of parsed artefacts. From the scores it derives the reconstruction
phase (0 to 3), the completeness, the correctness and the depth. A chain of
responsibility of phase handlers then picks the first handler that is
responsible for the new state. That handler writes the feedback and the next
input options (text, choice, quote and reasons/conjectures options) into a
new state of analysis. States of analysis are the snapshots of a project, and
a project store keeps their history.

This project models that engine. It also models the small text codecs around
it:
- the `[text](ref)` quote annotation codec of the input options;
- prompt construction and Argdown post-processing of the inference pipeline;
- the conversion between selections and quotes in the option renderer;
- the formalization list and entity offsets of the sofa renderer.

Modules follow the source files:

| module | file |
|---|---|
| `Analysis`, `Views` | the DeepA2 item, its fields and the deepa2 and Prover9 collaborators |
| `Text`, `Sorting`, `Wrappers` | Python string helpers (`find`, `int`, `str`), stable sorting, `Option` and `Result` |
| `Metrics`, `Evaluator` | `seppl/backend/da2metric.py` |
| `InputOptions` | `seppl/backend/inputoption.py` |
| `Inference` | `seppl/backend/inference.py` |
| `Handlers` | `seppl/backend/handler/handler.py` and the dispatch over the phase handlers |
| `PhaseZero`, `PhaseOne`, `PhaseTwo`, `PhaseThree` | `seppl/backend/handler/phase_*_handler.py` |
| `State` | `seppl/backend/state_of_analysis.py` |
| `Projects` | `seppl/backend/project.py` |
| `ProjectStores` | `seppl/backend/project_store.py` |
| `Prototype` | `seppl/utils.py` |
| `OptionRenderers`, `SofaRenderers` | `seppl/backend/gui/option_renderer.py`, `seppl/backend/gui/sofa_renderer.py` |

Where the source updates objects in place, the model uses classes:
- the evaluator and its metrics;
- the handlers and their `next` links;
- states of analysis, projects and the project store;
- the prototype state.

Loops become methods that are proved against specification functions. The
rest is functions and lemmas. The exceptions the modelled operations raise
are `Fault` values of a `Result`, so that callers see the error path:
`StopIteration`, `ZeroDivisionError`, `KeyError`, `AttributeError`,
`TypeError`, `IndexError`, `ValueError`, `UnboundLocalError` and
`RecursionError`. Exceptions the model does not raise are listed under
"## Left out": the `ImportError`s of names no module defines (`SofaMetrics`,
`DA2Metric`, `INPUT_TYPES`), the `AttributeError` of calling
`update_da2item` on an input class that has no such method, and the
`TypeError` of toggling a project's first snapshot.

## Model

| member | source | states |
|---|---|---|
| Text.Find | seppl/backend/inputoption.py:77-79 | `s.find(sub, start)`: -1, or a position at or after `start` where `sub` occurs |
| Text.FindLeftmost | seppl/backend/inputoption.py:79 | `str.index` finds the leftmost occurrence: none at or after `start` comes before the one found (see also seppl/backend/inputoption.py:93) |
| Text.FindMonotone | seppl/backend/inputoption.py:77-79 | looking from a later start that is still before the occurrence found gives the same occurrence |
| Text.IntToString | seppl/backend/inputoption.py:95 | `str(n)` of an integer is not empty |
| Text.IntToStringChars | seppl/backend/inputoption.py:95 | `str(n)` holds no space, parenthesis or bracket, and ends with a digit, so it cannot break the markup around it |
| Text.ParseInt | seppl/backend/inputoption.py:113 | `int(s)` succeeds only on a non-empty string |
| Text.IntRoundTrip | seppl/backend/inputoption.py:95 | `int(str(n)) == n` for every integer (see also seppl/backend/inputoption.py:113) |
| Text.Strip | seppl/backend/da2metric.py:288-289 | `s.strip()` is the slice of `s` left once its leading and trailing whitespace (the characters of Python's `str.isspace`) is removed, and it neither starts nor ends with whitespace |
| Text.Lower | seppl/backend/da2metric.py:288-289 | `s.lower()` keeps the length and lowers each ASCII and Latin-1 upper-case letter, leaving every other character as it is |
| Text.ReplaceNewlines | seppl/backend/inference.py:102 | `s.replace("\n", " ")` keeps the length and replaces each line break, and nothing else, by a space |
| Analysis.NewItem | seppl/backend/state_of_analysis.py:63 | `DeepA2Item(source_text=...)` holds the source text and leaves every other field empty |
| Analysis.Set | seppl/backend/handler/handler.py:91-92 | applying a user input to a copy of the item sets the input's field to its value and keeps every other field |
| Sorting.SortBy | seppl/backend/gui/option_renderer.py:131 | `sorted(xs, key=...)` is sorted by the key and a permutation of its input (see also seppl/backend/gui/option_renderer.py:211, seppl/backend/gui/sofa_renderer.py:279) |
| Sorting.SortByStable | seppl/backend/gui/option_renderer.py:211 | `sorted` is stable: the elements with the same key keep their relative order (see also seppl/backend/gui/option_renderer.py:226) |
| Views.ScoreOf | seppl/backend/da2metric.py:953-962 | the score of an unregistered metric is `None` |
| Views.FieldNamed | seppl/backend/inputoption.py:142 | the field an attribute name names carries that name |
| Views.NamedField | seppl/backend/inputoption.py:142 | every field's name is a known name and names that field back |
| Views.Formatted | seppl/backend/inputoption.py:138 | `DeepA2Layouter().format(item)` maps each field's name to the field's text (see also seppl/backend/da2metric.py:82-84) |
| Views.Names | seppl/backend/handler/phase_one_handler.py:177 | the attribute names of fields, one per field, in order |
| Views.Present | seppl/backend/handler/phase_one_handler.py:177 | `[f for f in fields if getattr(item, f)]` holds exactly the filled fields of the list (see also seppl/backend/handler/phase_zero_handler.py:269) |
| Views.NothingPresent | seppl/backend/handler/phase_one_handler.py:177 | no field is present exactly when none of the listed fields is filled |
| Views.FilledNames | seppl/backend/handler/phase_zero_handler.py:269 | the names of the filled fields, in their order |
| Views.Absent | seppl/backend/handler/phase_three_handler.py:80-83 | `[f for f in fields if not getattr(item, f)]` holds exactly the empty fields of the list |
| Views.PresentAbsentSplit | seppl/backend/handler/phase_three_handler.py:80-83 | every listed field is filled or empty: the two filters together count each field as often as the list does |
| Views.PresentAbsentLength | seppl/backend/handler/phase_three_handler.py:80-83 | the filled and the empty fields together are as many as the fields listed |
| Views.GenerateFor | seppl/backend/handler/phase_zero_handler.py:212-221 | generating for an item: `AttributeError` without a pipeline, `IndexError` on no outputs, and a generated text exactly when there is a rater, which records the mode and that text |
| Views.GeneratorFor | seppl/backend/handler/phase_zero_handler.py:212-221 | the generator of a handler generates for the formatted item in each mode |
| Inference.PreprocessInputs | seppl/backend/inference.py:99-105 | the keys are kept, a missing value stays missing, and each text keeps its length and every character except line breaks, of which none remain |
| Inference.PreprocessIdempotent | seppl/backend/inference.py:99-105 | preprocessing preprocessed inputs changes nothing |
| Inference.ConstructPrompt | seppl/backend/inference.py:92-97 | the loop builds the prompt the specification function `Prompt` defines, raising `KeyError` on a missing input key |
| Inference.PromptFailureSticks | seppl/backend/inference.py:95-96 | once a key of the mode's inputs is missing, the whole prompt fails with the same error |
| Inference.PromptDefinedIffKeysPresent | seppl/backend/inference.py:92-97 | a prompt exists exactly when every input key of the mode is present, and then it starts with the target and a colon |
| Inference.Generate | seppl/backend/inference.py:65-90 | the raw outputs are returned unchanged; a rater exists exactly when the first output holds a generated text, and it records the inputs, the mode and that text; an empty output list raises `IndexError` |
| Inference.GenerateWithChain | seppl/backend/inference.py:39-63 | the loop over the modes computes `RunChain`: each step sees the texts generated before it, and a step without generated text ends the chain with an error |
| Inference.ChainCompletedKeepsAndSets | seppl/backend/inference.py:53-63 | a completed chain keeps every input key, sets the target of every step, and leaves a key that no step targets as it was |
| Inference.DigitsEnd | seppl/backend/inference.py:118 | the run of digits `[0-9]*` from a position ends at the first non-digit |
| Inference.LabelMatchAt | seppl/backend/inference.py:118 | a match of ` \(([0-9]*)\) ` starts with a space and an opening parenthesis, ends with a closing parenthesis and a space, and holds only digits in between |
| Inference.LabelMatches | seppl/backend/inference.py:119 | the matches `re.finditer` reports lie inside the text, are non-empty, follow one another without overlap, and start at or after the search position |
| Inference.LabelMatchesAreMatches | seppl/backend/inference.py:118-119 | every reported match is a match of the label pattern at its own start |
| Inference.StartsBounded | seppl/backend/inference.py:122-126 | the matches from the `k`-th on start at or after the `k`-th, and past its end unless it is that one |
| Inference.BreakFromLength | seppl/backend/inference.py:114-128 | inserting line breaks between propositions keeps the length of the text |
| Inference.BreakFromAt | seppl/backend/inference.py:122-127 | a character of the result is a line break exactly where a label match starts, and the original character everywhere else |
| Inference.BreakFromAdvance | seppl/backend/inference.py:122-126 | one turn of the loop extends the text built so far by the piece before the match, a line break and the match without its leading space |
| Inference.NewlinesAt | seppl/backend/inference.py:114-128 | `newlines_between_propositions` keeps the length and turns the leading space of each label match, and nothing else, into a line break |
| Inference.BreakAtMatches | seppl/backend/inference.py:120-127 | the pointer loop over the label matches computes the specification `BreakFrom` |
| Inference.NewlinesBetweenPropositions | seppl/backend/inference.py:114-128 | the nested function computes `Newlines`, whose properties `NewlinesAt` states |
| Inference.PostprocessStep | seppl/backend/inference.py:140-150 | one inference match's worth of output: the propositions before it with line breaks, a line break, the match without its first and last character, a line break |
| Inference.PostprocessAtMatches | seppl/backend/inference.py:137-153 | the pointer loop over the inference matches computes the specification `PostprocessFrom` |
| Inference.PostprocessArgdown | seppl/backend/inference.py:108-154 | `postprocess_argdown` computes `Postprocessed` for the matches the inference pattern yields |
| Inference.PostprocessLength | seppl/backend/inference.py:137-153 | when each inference match is at least two characters long, post-processing keeps the length |
| Inference.NewlinesOnlyBreaks | seppl/backend/inference.py:114-128 | each character after inserting line breaks is the original one or a line break |
| Inference.PostprocessPieces | seppl/backend/inference.py:140-150 | the output splits into the segment before the `k`-th inference, the inference's replacement, and the rest |
| Inference.PostprocessHeadAt | seppl/backend/inference.py:141-143 | a character before the `k`-th inference comes out as itself or as a line break |
| Inference.PostprocessMidAt | seppl/backend/inference.py:145-149 | a character inside the `k`-th inference comes out as itself or as a line break |
| Inference.MarkedInner | seppl/backend/inference.py:145-149 | the replacement of an inference match has its length, and each of its characters is the original one or a line break |
| Inference.PostprocessOnlyBreaksLines | seppl/backend/inference.py:108-154 | with inference matches at least two characters long, post-processing keeps the length and only ever replaces a character by a line break |
| Inference.PostprocessRestAt | seppl/backend/inference.py:150-153 | a character after the `k`-th inference comes out as itself or as a line break |
| InputOptions.RunEnd | seppl/backend/inputoption.py:56 | a character class run such as `[^ ]*` or `[^\[]+` ends at the first stop character or at the end of the text |
| InputOptions.LastQuoteParen | seppl/backend/inputoption.py:56 | the optional title group `( \"(.+)\")?` can only close where a quotation mark is followed by `)` |
| InputOptions.TitleEnd | seppl/backend/inputoption.py:56 | a title ` "..."` after the target ends with the match's closing parenthesis |
| InputOptions.TargetEnd | seppl/backend/inputoption.py:56 | backtracking over the end of the link target yields a target and match end inside the text |
| InputOptions.TextEnd | seppl/backend/inputoption.py:56 | backtracking over the end of the quoted text yields a match ending inside the text |
| InputOptions.MatchAt | seppl/backend/inputoption.py:56 | a match of the quote pattern at the start of a text ends inside it |
| InputOptions.AnnotationPieces | seppl/backend/inputoption.py:83-100 | the annotation is the text spelled by its plain and marked pieces |
| InputOptions.EraseSegments | seppl/backend/inputoption.py:83-100 | removing the markup from an annotation gives back the source text from the pointer on |
| InputOptions.SegmentsUnfold | seppl/backend/inputoption.py:91-98 | one turn of `quotes_as_annotation`: a quote found is marked after the text before it, a quote not found is skipped |
| InputOptions.AnnotationFound | seppl/backend/inputoption.py:92-96 | a turn whose quote is found moves the text before it and its markup `[text](ref)` into the annotation built so far |
| InputOptions.AnnotationSkipped | seppl/backend/inputoption.py:97-98 | a turn whose quote is not found leaves the annotation and the pointer as they are |
| InputOptions.AnnotationTurn | seppl/backend/inputoption.py:92-98 | one turn of the loop marks the next quote where it is found after the pointer, or skips it, and keeps the annotation built so far plus the rest of the specification equal to the whole annotation |
| InputOptions.QuotesAsAnnotationLoop | seppl/backend/inputoption.py:83-100 | the pointer loop of `quotes_as_annotation` computes the specification `QuotesAsAnnotation` |
| InputOptions.RefOf | seppl/backend/inputoption.py:110-115 | the reference of a link target is its integer value, and -1 when it is empty or not an integer |
| InputOptions.QuotesOf | seppl/backend/inputoption.py:109-121 | one quote per match, in order, with the match's text and the reference of its target |
| InputOptions.AnnotationAsQuotesLoop | seppl/backend/inputoption.py:103-122 | the loop of `annotation_as_quotes` computes `AnnotationAsQuotes`, one quote per match, with the link target stopping at `)` as the first Findings row corrects it |
| InputOptions.AnnotationAsQuotesAsWritten | seppl/backend/inputoption.py:103-122 | `annotation_as_quotes` with the pattern as written: one quote per match whose link target runs on to the next space, labelled by that target |
| InputOptions.ParenthesisedQuote | seppl/backend/inputoption.py:56 | as written, the markup `([a](1))` reads back as the quote `a` with label -1, because its target takes the outer `)`; corrected, it reads back with label 1 |
| InputOptions.Texts | seppl/backend/inputoption.py:76-79 | the texts the validity check looks up, one per quote, in order |
| InputOptions.UnmarkedIsAnnotation | seppl/backend/inputoption.py:69-80 | an annotation without any markup is valid for every source text |
| InputOptions.IsAnnotationLoop | seppl/backend/inputoption.py:69-80 | `is_annotation` computes the specification `IsAnnotation`: every marked text occurs in the source after the previous one, with the link target stopping at `)` as the first Findings row corrects it |
| InputOptions.OutOfOrderAnnotation | seppl/backend/inputoption.py:69-80 | as written, `[a](1)[b](2)` passes `is_annotation` for the source `b a`, since `b` hides in the first target; corrected, it fails because `b` does not occur after `a` |
| InputOptions.TextsInOrder | seppl/backend/inputoption.py:75-80 | the pointer loop looks each text up from the end of the previous one and fails at the first one missing |
| InputOptions.TextEndSkip | seppl/backend/inputoption.py:56 | backtracking passes over positions where the text cannot close |
| InputOptions.ScanPlain | seppl/backend/inputoption.py:74 | text without an opening bracket produces no match |
| InputOptions.TargetAtParen | seppl/backend/inputoption.py:56 | a closing parenthesis ends a link target that holds neither a space nor a parenthesis |
| InputOptions.MatchShape | seppl/backend/inputoption.py:56 | a text of the shape `[text](target)` is matched with that text and that target |
| InputOptions.MatchMarkup | seppl/backend/inputoption.py:56 | the markup `quotes_as_annotation` writes for a quote is matched as one quote, with the quote's text and its reference as target (see also seppl/backend/inputoption.py:95) |
| InputOptions.ScanMarked | seppl/backend/inputoption.py:74 | plain text followed by the markup of a quote: the scan finds that quote and goes on after it (see also seppl/backend/inputoption.py:94-95) |
| InputOptions.ScanRendered | seppl/backend/inputoption.py:103-122 | an annotation spelled by well-marked pieces reads back as exactly the quotes marked in them |
| InputOptions.ScanStep | seppl/backend/inputoption.py:94-95 | plain text, a quote's markup, then the rest: the quote is read back in front of the rest's quotes (see also seppl/backend/inputoption.py:109-121) |
| InputOptions.SegmentsWellMarked | seppl/backend/inputoption.py:83-100 | the pieces built from non-empty quotes found in order are well marked and mark exactly those quotes |
| InputOptions.InOrderTail | seppl/backend/inputoption.py:77-79 | when texts are in order, the first is found, occurs where it is found, and the rest are in order after it |
| InputOptions.QuotesOfMarked | seppl/backend/inputoption.py:110-121 | the match of a quote's markup reads back as that quote, in front of the others |
| InputOptions.Unlocated | seppl/backend/inputoption.py:116-121 | the quotes as an annotation records them: same text and reference, no position |
| InputOptions.AnnotationRoundTrip | seppl/backend/inputoption.py:83-122 | reading back the annotation of non-empty quotes found in order, in a source without brackets or parentheses, gives the quotes back (without position), and the annotation is valid |
| InputOptions.OrderedQuotesFound | seppl/backend/inputoption.py:76-80 | quotes occurring at increasing, non-overlapping positions are all found in order |
| InputOptions.AdjacentQuotesAnnotation | seppl/backend/inputoption.py:91-99 | the annotation of two adjacent one-letter quotes puts their markups side by side |
| InputOptions.AdjacentQuotesScanAsWritten | seppl/backend/inputoption.py:56 | with the pattern as written, the first link target runs over the second markup to the last `)` (see also seppl/backend/inputoption.py:108) |
| InputOptions.NotANumber | seppl/backend/inputoption.py:112-115 | a target with a non-digit after its first character is not an integer, so `int` raises `ValueError` |
| InputOptions.AdjacentQuotesMergeAsWritten | seppl/backend/inputoption.py:56 | as written, two adjacent quotes read back as one quote with reference -1 (see also seppl/backend/inputoption.py:103-122) |
| InputOptions.NewQuoteOption | seppl/backend/inputoption.py:58-67 | `__post_init__` keeps a valid non-empty annotation, drops an invalid one, and builds one from the quotes when there are quotes and no valid annotation; validity is `IsAnnotation` with the corrected link target |
| InputOptions.NewQuoteOptionValid | seppl/backend/inputoption.py:58-67 | after `__post_init__` a non-empty annotation is valid (with the corrected link target) whenever the quotes could be annotated |
| InputOptions.TextOptionFor | seppl/backend/inputoption.py:140-155 | a text option for the field, pre-filled with the field's text only when asked for and an item is given, asking to revise a filled field and to enter an empty one |
| InputOptions.TextOptionsGrow | seppl/backend/inputoption.py:149-155 | appending the next field's option keeps the options built so far those of the fields so far |
| InputOptions.TextOptions | seppl/backend/inputoption.py:128-156 | one text option per field, in the fields' order |
| InputOptions.CreateTextOptions | seppl/backend/inputoption.py:128-156 | the loop of `create_text_options` returns exactly `TextOptions`, one option per field in order |
| InputOptions.QuoteOptionFor | seppl/backend/inputoption.py:170-186 | a quote option for the field on the item's source text, with the item's quotes only when asked for, asking to revise when there are quotes and to mark otherwise |
| InputOptions.QuoteOptionsGrow | seppl/backend/inputoption.py:179-186 | appending the next field's option keeps the options built so far those of the fields so far |
| InputOptions.QuoteOptions | seppl/backend/inputoption.py:159-187 | one quote option per field in order; without an item and with some field, reading `source_text` raises `AttributeError` |
| InputOptions.CreateQuoteOptions | seppl/backend/inputoption.py:159-187 | the loop of `create_quote_options` returns exactly `QuoteOptions`, including its error |
| Metrics.Prepend | seppl/backend/da2metric.py:44 | prefixing one element to each combination keeps their number and order, and each result is `[x]` followed by that combination |
| Metrics.CombinationsCount | seppl/backend/da2metric.py:44 | `combinations(xs, r)` yields exactly `Binomial(len(xs), r)` tuples |
| Metrics.CombinationsAreSublists | seppl/backend/da2metric.py:44 | every combination of size `r` has `r` elements, taken from `xs` in their original order |
| Metrics.PowersetSize | seppl/backend/da2metric.py:41-44 | `Util.powerset` of an `n`-element list has `2^n` members, so the cue powerset of the coherence check holds at most 8 |
| Metrics.PowersetSublists | seppl/backend/da2metric.py:41-44 | every member of the powerset keeps the order of the list and is shorter than the bound |
| Metrics.AvailableCues | seppl/backend/da2metric.py:47-56 | `available_cues` lists at most three ids, and holds `g`, `x`, `h` exactly when the gist, context and source paraphrase are filled |
| Metrics.CountedAngles | seppl/backend/da2metric.py:162 | completeness counts exactly the angles whose id is not among the ignored `stghxe` (see also seppl/backend/da2metric.py:170-171) |
| Metrics.FieldsOf | seppl/backend/da2metric.py:173 | each angle is read through the item field it names, in order |
| Metrics.ArgdownMetricsWatchReconstruction | seppl/backend/da2metric.py:217-218 | every metric that parses the reconstruction lists `argdown_reconstruction` among its critical angles |
| Metrics.SetFormEntry | seppl/backend/da2metric.py:557-568 | storing one parsed formalization list changes that cache entry and leaves the other two, the parse and the default reconstruction alone |
| Metrics.RefreshArgdown | seppl/backend/da2metric.py:194-215 | the cache is re-parsed only when there is an item and `parsed_argdown` was not refreshed yet in this update; a refresh appends `parsed_argdown` to the list of refreshed entries and stores the parse of the item's reconstruction; otherwise the cache is unchanged |
| Metrics.RefreshDefaultReconstruction | seppl/backend/da2metric.py:349-367 | a missing default reconstruction is always regenerated from the item; a regeneration appends `default_reconstruction` and stores the reconstruction generated for the item |
| Metrics.Pow09 | seppl/backend/da2metric.py:266 | `0.9 ** n` lies in (0, 1] and is below 1 for any positive `n` (see also seppl/backend/da2metric.py:392) |
| Metrics.SizeScoreRange | seppl/backend/da2metric.py:256-272 | `1 - 0.9 ** n` lies in [0, 1), is 0 exactly for `n = 0`, and grows with `n` (see also seppl/backend/da2metric.py:388-393) |
| Metrics.CachedArgdown | seppl/backend/da2metric.py:262 | reading `self._cache["parsed_argdown"]` raises `KeyError` exactly when no metric has parsed the reconstruction yet, else returns what was stored (see also seppl/backend/da2metric.py:427) |
| Metrics.CachedFormulas | seppl/backend/da2metric.py:789-791 | reading a formalization entry raises `KeyError` with its key exactly when it was never stored, else returns the stored list |
| Metrics.LayoutArgument | seppl/backend/da2metric.py:150-156 | the item is laid out with a parse exactly when one was cached and it is not `None` |
| Metrics.CountFilledBounds | seppl/backend/da2metric.py:170-173 | the filled count never exceeds the counted angles and equals them exactly when every counted angle is filled |
| Metrics.Share | seppl/backend/da2metric.py:175 | a count divided by a positive total at least as large lies in [0, 1] and is 1 only for the full count (see also seppl/backend/da2metric.py:442) |
| Metrics.CompletenessUndefined | seppl/backend/da2metric.py:164-176 | `GlobalCompletenessScore.calculate` divides by zero exactly when every angle of the map is ignored |
| Metrics.CompletenessRange | seppl/backend/da2metric.py:164-176 | global completeness lies in [0, 1] and is 1 exactly when every counted angle of the item is filled |
| Metrics.FirstLabelled | seppl/backend/da2metric.py:435-438 | the lookup returns a statement of the argument with the label, and raises `StopIteration` exactly when no statement carries it |
| Metrics.QuoteAligned | seppl/backend/da2metric.py:434-441 | checking one quote raises exactly when its reference lies between 1 and the number of statements but no statement carries that label |
| Metrics.AlignedFromBounds | seppl/backend/da2metric.py:432-443 | the aligned count never exceeds the number of quotes and equals it exactly when every quote is aligned; the count raises exactly when some quote's lookup raises (see also seppl/backend/da2metric.py:466-477) |
| Metrics.CountAligned | seppl/backend/da2metric.py:432-443 | the counting loop returns the count `AlignedFrom` defines, including the exception it raises (see also seppl/backend/da2metric.py:466-477) |
| Metrics.OnceFormalized | seppl/backend/da2metric.py:603-629 | the statements formalized exactly once are at most all statements |
| Metrics.PremiseStatements | seppl/backend/da2metric.py:591 | the premises are exactly the statements that are not conclusions |
| Metrics.ConclusionStatements | seppl/backend/da2metric.py:593 | the intermediary conclusions are drawn exactly from the statements that are conclusions (see also seppl/backend/da2metric.py:830-833) |
| Metrics.PartitionStatements | seppl/backend/da2metric.py:591 | every statement is either a premise or a conclusion, never both (see also seppl/backend/da2metric.py:830-833) |
| Metrics.FormalizedOnceBound | seppl/backend/da2metric.py:587-651 | when the reconstruction ends in a conclusion, each statement is counted at most once |
| Metrics.FormalizationCompletenessBounded | seppl/backend/da2metric.py:587-651 | when the reconstruction ends in a conclusion, formalization completeness is a score in [0, 1] |
| Metrics.FormalizationCompletenessCanExceedOne | seppl/backend/da2metric.py:587-651 | a one-statement reconstruction whose statement is a premise, formalized once as a premise and once as the conclusion, scores 2.0 |
| Metrics.KeysWellFormed | seppl/backend/da2metric.py:671-689 | `None` exactly when there are no placeholder keys; otherwise 0 or 1, and 1 exactly when every key occurs in some formula |
| Metrics.FormsWellFormed | seppl/backend/da2metric.py:753-765 | the score is 0 or 1, and `None` exactly when there are no formalizations at all |
| Metrics.FirstRef | seppl/backend/da2metric.py:786-808 | the first formalization below the bound that references the label, or -1 exactly when there is none |
| Metrics.UsedFormulas | seppl/backend/da2metric.py:820-826 | the formulas of a step's premises, one per used label, or `None` exactly when one of them has no formula |
| Metrics.OnlyStepsValid | seppl/backend/da2metric.py:816-828 | only an inference step can be judged valid, and any other statement is judged not valid |
| Metrics.ValidStepsBounded | seppl/backend/da2metric.py:811-838 | when only conclusions are judged valid, the valid steps are at most the conclusions |
| Metrics.CountValidSteps | seppl/backend/da2metric.py:811-838 | the counting loop returns the count `ValidStepsFrom` defines, `None` as soon as a formula is missing |
| Metrics.LocalValidityRange | seppl/backend/da2metric.py:811-838 | local deductive validity is a share in [0, 1] |
| Metrics.LocalValidityWithoutConclusions | seppl/backend/da2metric.py:830-834 | a parsed argument without conclusions makes local validity raise `ZeroDivisionError` |
| Metrics.NoStepAllValid | seppl/backend/da2metric.py:811-838 | when no statement is judged valid the count is 0 |
| Metrics.CalculateAlignment | seppl/backend/da2metric.py:422-452 | the alignment metrics, computed by their loop, return the score `Alignment` defines (see also seppl/backend/da2metric.py:456-486) |
| Metrics.CalculateLocalValidity | seppl/backend/da2metric.py:811-838 | local deductive validity, computed by its loop, returns the score `LocalValidity` defines |
| Metrics.CalculateScore | seppl/backend/da2metric.py:164-176 | `calculate` of every metric kind, running the loops, returns the score `Calculate` defines (see also seppl/backend/da2metric.py:256-838) |
| Metrics.ShareRoundsToOne | seppl/backend/da2metric.py:450-452 | for fewer than 200000 items, `round(c / n, 5) >= 1` holds exactly when `c == n` |
| Metrics.AlignmentSatisfied | seppl/backend/da2metric.py:432-452 | an alignment metric is satisfied exactly when every quote is aligned (see also seppl/backend/da2metric.py:466-486) |
| Metrics.QuoteCountSatisfied | seppl/backend/da2metric.py:385-401 | the reasons (or conjectures) metric is satisfied exactly when the list is not empty, and its score lies in [0, 1) (see also seppl/backend/da2metric.py:403-419) |
| Metrics.ScoreUpdate | seppl/backend/da2metric.py:133-147 | the item is always replaced; the score is kept when nothing critical changed; on a recalculation a successful calculation's score is stored, and a calculation that raises keeps the old score and reports its exception |
| Metrics.ScoreUpdateSettles | seppl/backend/da2metric.py:133-147 | updating a second time with the same item recalculates nothing, whatever the cache holds |
| Metrics.FreshRecalculates | seppl/backend/da2metric.py:99-108 | a freshly created metric takes the calculated score on its first item (see also seppl/backend/da2metric.py:133-147) |
| Metrics.UpdateScore | seppl/backend/da2metric.py:133-147 | `update_score`, running the calculation's loops, yields the state `ScoreUpdate` defines |
| Evaluator.ClassNameInjective | seppl/backend/da2metric.py:935 | two metric kinds with the same class name are the same kind, so the registry keyed by class name loses nothing |
| Evaluator.ClassNamesInjective | seppl/backend/da2metric.py:935 | class names identify metric kinds, for all pairs at once |
| Evaluator.DefaultOrderDistinct | seppl/backend/da2metric.py:886-916 | `__init__` registers each metric class once |
| Evaluator.DefaultOrderIndex | seppl/backend/da2metric.py:886-916 | each metric's registration position is the one recorded for it |
| Evaluator.EveryKindIsDefault | seppl/backend/da2metric.py:886-916 | every metric kind of the model is registered by `__init__` |
| Evaluator.SearchName | seppl/backend/da2metric.py:955-957 | looking up a name among kinds returns a kind with that class name, and nothing exactly when no listed kind carries it |
| Evaluator.KindNamed | seppl/backend/da2metric.py:955-957 | a name refers to a metric exactly when some kind carries that class name, and then to that kind |
| Evaluator.UnlistedNameIsNoKind | seppl/backend/da2metric.py:955-962 | a name missing from the registry's order is the class name of no kind |
| Evaluator.KindNamedClassName | seppl/backend/da2metric.py:955-957 | `individual_score(metric_class)` looks up the kind of the class itself |
| Evaluator.ScoreFromKeys | seppl/backend/da2metric.py:949-951 | the score pass replaces metric states but keeps the set of registered metrics |
| Evaluator.ScoreFromWithoutInference | seppl/backend/da2metric.py:307-309 | without an inference pipeline the coherence of reconstruction and source stays unscored through any score pass (see also seppl/backend/da2metric.py:949-951) |
| Evaluator.CachePass | seppl/backend/da2metric.py:944-947 | the cache loop, metric by metric in registration order, yields the cache and refreshed keys `CacheFrom` defines |
| Evaluator.ScorePass | seppl/backend/da2metric.py:949-951 | the score loop, metric by metric, yields the metric states and the raised exception `ScoreFrom` defines |
| Evaluator.RefreshStep | seppl/backend/da2metric.py:123-131 | any one metric's `update_cache` keeps the invariant that each parsed artefact is stored at most once per pass and the stored parse belongs to the new item (see also seppl/backend/da2metric.py:194-215, seppl/backend/da2metric.py:338-369, seppl/backend/da2metric.py:542-570) |
| Evaluator.CacheFromParsesOnce | seppl/backend/da2metric.py:194-215 | through a whole cache pass each artefact is parsed at most once, and the reconstruction's parse is either untouched or the parse of the new item's reconstruction (see also seppl/backend/da2metric.py:944-947) |
| Evaluator.CacheFromExtends | seppl/backend/da2metric.py:944-947 | a cache pass only appends to the list of refreshed keys |
| Evaluator.CacheFromKeepsParse | seppl/backend/da2metric.py:198-208 | when every metric has already seen the same reconstruction and a parse is cached, the pass does not parse it again (see also seppl/backend/da2metric.py:944-947) |
| Evaluator.FormEntryKeepsParse | seppl/backend/da2metric.py:542-570 | re-parsing one formalization list touches neither the reconstruction's parse nor its key |
| Evaluator.FormalizationsKeepParse | seppl/backend/da2metric.py:542-570 | re-parsing the formalizations touches neither the reconstruction's parse nor its key |
| Evaluator.ArgdownKeepsParse | seppl/backend/da2metric.py:194-215 | with a parse in the cache and the reconstruction unchanged, `ArgdownMetric.update_cache` changes nothing |
| Evaluator.KeepsParseStep | seppl/backend/da2metric.py:123-131 | no metric's `update_cache` re-parses an unchanged reconstruction whose parse is cached (see also seppl/backend/da2metric.py:194-215, seppl/backend/da2metric.py:338-369, seppl/backend/da2metric.py:542-570) |
| Evaluator.PhaseFromIsFirstBlocked | seppl/backend/da2metric.py:981-998 | the reconstruction phase is the first phase held up by an unsatisfied metric without a satisfied alternative, or the final phase when none is |
| Evaluator.MeanRange | seppl/backend/da2metric.py:1023-1025 | the mean of values in [0, 1] lies in [0, 1] |
| Evaluator.GatingScores | seppl/backend/da2metric.py:1018-1022 | every score averaged by `correctness` is the defined score of some registered metric |
| Evaluator.DepthRange | seppl/backend/da2metric.py:1028-1054 | `depth` lies in [0, 1] when its five scores do |
| Evaluator.SofaEvaluator.constructor | seppl/backend/da2metric.py:877-916 | `__init__` registers the twenty metrics in order, each fresh and unscored, with its default phase, and the reasons and conjectures metrics as each other's alternatives; the cache is empty |
| Evaluator.SofaEvaluator.Copy | seppl/backend/handler/handler.py:95 | the deep copy holds the same registry, phases, alternatives, scores and cache |
| Evaluator.SofaEvaluator.RegisterMetric | seppl/backend/da2metric.py:925-940 | the metric is registered fresh under its class name with its phase, keeping its place when it was registered before; its alternatives are recorded only when there are any; the cache is untouched |
| Evaluator.SofaEvaluator.Update | seppl/backend/da2metric.py:942-951 | the cache pass runs over the registered metrics; unless it raised, the score pass follows; registry, phases and alternatives are unchanged |
| Evaluator.SofaEvaluator.ReconstructionPhase | seppl/backend/da2metric.py:981-998 | the loop returns the phase `Phase` defines, never beyond the final phase |
| Evaluator.SofaEvaluator.IndividualScore | seppl/backend/da2metric.py:953-962 | the score of the metric registered under the name, and `None` for a name no metric carries |
| Evaluator.SofaEvaluator.AllScores | seppl/backend/da2metric.py:964-974 | exactly the metrics in the requested phases (all metrics for no phases) appear, each with its own score |
| Evaluator.Dict | seppl/backend/da2metric.py:1056-1068 | every defined metric score appears under its name and nothing else does, besides the four aggregates under their own keys |
| Evaluator.NoInferenceMeansPhaseZero | seppl/backend/da2metric.py:307-309 | without a language-model pipeline the coherence metric stays unscored, so the evaluator reports phase 0 whatever the analysis (see also seppl/backend/da2metric.py:894, seppl/backend/da2metric.py:981-998) |
| Evaluator.CorrectnessRange | seppl/backend/da2metric.py:1011-1025 | `correctness` lies in [0, 1] whenever every metric score does |
| Handlers.CatchAllOf | seppl/backend/handler/phase_zero_handler.py:247-252 | the catch-all handler chosen for a phase belongs to that phase (see also seppl/backend/handler/phase_one_handler.py:161-166, seppl/backend/handler/phase_two_handler.py:197-202, seppl/backend/handler/phase_three_handler.py:39-44) |
| Handlers.ResponsibleInItsPhase | seppl/backend/handler/phase_zero_handler.py:34-37 | a handler answers only an analysis in its own phase, and the catch-all of a phase answers every analysis in that phase (see also seppl/backend/handler/phase_one_handler.py:28-32, seppl/backend/handler/phase_two_handler.py:30-34, seppl/backend/handler/phase_three_handler.py:28-32) |
| Handlers.BuildOptions | seppl/backend/handler/phase_zero_handler.py:64-275 | `get_input_options` of each handler, computed by its loops, returns the options `Options` defines (see also seppl/backend/handler/phase_one_handler.py:50-190, seppl/backend/handler/phase_two_handler.py:94-240, seppl/backend/handler/phase_three_handler.py:50-90) |
| Handlers.NoRJOptionsAre | seppl/backend/handler/phase_one_handler.py:50-80 | phase 1's handler for missing reasons and conjectures offers the quote rounds in its fixed order |
| Handlers.NoCompleteFormOptionsAre | seppl/backend/handler/phase_two_handler.py:123-155 | phase 2's handler for an incomplete formalization offers the formalization fields and the reconstruction |
| Handlers.FinalOptionsAre | seppl/backend/handler/phase_three_handler.py:50-90 | phase 3's catch-all offers the options its catch-all builder defines |
| Handlers.Respond | seppl/backend/handler/handler.py:86-124 | on success the revised item holds the user's value in the edited field and every other field unchanged, the evaluation is that of the revised item, and the feedback and options are the handler's on the revised analysis; a failure comes from the evaluation or the options of that revised item |
| Handlers.Dispatch | seppl/backend/handler/handler.py:84-129 | the handler that answers is the first responsible one of the chain; `None` exactly when no handler in the chain is responsible; `RecursionError` only when the chain reaches beyond the recursion limit with no responsible handler before it |
| Handlers.DispatchFirst | seppl/backend/handler/handler.py:86 | the first responsible handler within the recursion limit answers (see also seppl/backend/handler/handler.py:126-127) |
| Handlers.DispatchNone | seppl/backend/handler/handler.py:126-129 | a chain within the recursion limit where nobody is responsible answers `None` |
| Handlers.CatchAllAnswers | seppl/backend/handler/handler.py:84-129 | a chain within the recursion limit that holds the catch-all of the incoming phase always finds a handler, and one of that phase |
| Handlers.KindsOf | seppl/backend/handler/handler.py:126-127 | the handler kinds of a chain, one per handler, in chain order |
| Handlers.UserInputHandler.constructor | seppl/backend/handler/handler.py:47-51 | a new handler has its own kind and tools and no successor |
| Handlers.UserInputHandler.SetNext | seppl/backend/handler/handler.py:53-58 | `set_next` links the successor and returns that same handler |
| Handlers.UserInputHandler.Revise | seppl/backend/handler/handler.py:87-124 | the responsible branch answers with a fresh revision of the snapshot whose item, evaluation, feedback and options are those `Respond` defines, leaving the incoming snapshot alone |
| Handlers.UserInputHandler.Handle | seppl/backend/handler/handler.py:84-129 | `handle` answers as the handler `Routed` picks: `RecursionError` when delegation exceeds the limit, `None` at the end of a chain with no responsible handler, else that handler's revision |
| Handlers.Routed | seppl/backend/handler/handler.py:84-129 | the handler a request is routed to is a position within the chain |
| Handlers.DispatchAtLimit | seppl/backend/handler/handler.py:126-127 | delegating at the recursion limit raises `RecursionError` |
| Handlers.DispatchOn | seppl/backend/handler/handler.py:126-127 | a handler that is not responsible routes the request as the rest of the chain does, one level deeper |
| PhaseZero.CatchAllSilentAsWritten | seppl/backend/handler/phase_zero_handler.py:247-252 | as written the phase-0 handlers derive from the abstract base, whose `is_responsible` returns nothing, so even the catch-all does not answer an analysis in phase 0 |
| PhaseZero.ResponsibleInPhaseZero | seppl/backend/handler/phase_zero_handler.py:34-37 | with the phase test of `PhaseZeroHandler` inherited, a phase-0 handler answers only in phase 0 and the catch-all answers every analysis in phase 0 (see also seppl/backend/handler/phase_zero_handler.py:247-252) |
| PhaseZero.NoCuesCondition | seppl/backend/handler/phase_zero_handler.py:54-58 | `NoCues` answers exactly when none of conclusion, gist, context and source paraphrase is filled (see also seppl/backend/handler/phase_zero_handler.py:23-28) |
| PhaseZero.Feedback | seppl/backend/handler/phase_zero_handler.py:39-48 | with the `PhaseZeroHandler` base restored as the second Findings row corrects it (as written, `super().get_feedback` reaches the abstract stub and returns `None`), each handler's feedback starts with the default phase-0 feedback, and `NoCues` adds nothing to it (see also seppl/backend/handler/phase_zero_handler.py:60-62, seppl/backend/handler/phase_zero_handler.py:88-91, seppl/backend/handler/phase_zero_handler.py:120-123, seppl/backend/handler/phase_zero_handler.py:154-157, seppl/backend/handler/phase_zero_handler.py:191-194, seppl/backend/handler/phase_zero_handler.py:254-257) |
| PhaseZero.NoCuesOptions | seppl/backend/handler/phase_zero_handler.py:64-76 | four text options, one per cue field in order, each empty and asking for that field |
| PhaseZero.NoArgdOptions | seppl/backend/handler/phase_zero_handler.py:93-108 | five options: the reconstruction, then each cue field, pre-filled from the revised item |
| PhaseZero.ReconstructionOption | seppl/backend/handler/phase_zero_handler.py:125-138 | a single option, the reconstruction pre-filled from the revised item (see also seppl/backend/handler/phase_zero_handler.py:159-172) |
| PhaseZero.ParsedForMismatch | seppl/backend/handler/phase_zero_handler.py:204-209 | the cached parse when there is one; reading the statements of a missing parse raises `AttributeError` |
| PhaseZero.TakeConclusion | seppl/backend/handler/phase_zero_handler.py:223-228 | a choice for the conclusion field whose only answer `yes` is the reconstruction's conclusion |
| PhaseZero.AdoptReconstruction | seppl/backend/handler/phase_zero_handler.py:230-237 | a choice for the reconstruction whose only answer `yes` is the generated text, carrying the generation's rater |
| PhaseZero.MismatchAssembled | seppl/backend/handler/phase_zero_handler.py:221-244 | the take-over choice, the adopt choice only when the generated text is not empty, then the conclusion and the reconstruction pre-filled |
| PhaseZero.MismatchOptions | seppl/backend/handler/phase_zero_handler.py:196-244 | a missing parse or a failed generation raises; otherwise the options assembled from the parse's last statement and the answer to mode `s+c => a` |
| PhaseZero.CatchAllMode | seppl/backend/handler/phase_zero_handler.py:269-274 | the catch-all asks for a reconstruction from the source text and the filled cues |
| PhaseZero.GeneratedReconstruction | seppl/backend/handler/phase_zero_handler.py:286-292 | a text option for the reconstruction holding the generated text and its rater |
| PhaseZero.CatchAllAssembled | seppl/backend/handler/phase_zero_handler.py:284-298 | the generated reconstruction only when it is not empty, then the reconstruction and every cue field, pre-filled |
| PhaseZero.CatchAllOptions | seppl/backend/handler/phase_zero_handler.py:259-299 | a failed generation raises; otherwise the options assembled from the model's answer |
| PhaseOne.ResponsibleInPhaseOne | seppl/backend/handler/phase_one_handler.py:28-32 | a phase-1 handler answers only in phase 1, and the catch-all answers every analysis in phase 1 (see also seppl/backend/handler/phase_one_handler.py:43-48, seppl/backend/handler/phase_one_handler.py:86-95, seppl/backend/handler/phase_one_handler.py:125-134, seppl/backend/handler/phase_one_handler.py:164-166) |
| PhaseOne.NoRJExcludesAlignment | seppl/backend/handler/phase_one_handler.py:43-48 | an analysis without reasons and conjectures is never handed to an alignment handler (see also seppl/backend/handler/phase_one_handler.py:86-95, seppl/backend/handler/phase_one_handler.py:125-134) |
| PhaseOne.Feedback | seppl/backend/handler/phase_one_handler.py:34-37 | each handler's feedback starts with the default phase-1 feedback, and `NoRJ` adds nothing to it (see also seppl/backend/handler/phase_one_handler.py:97-100, seppl/backend/handler/phase_one_handler.py:136-139, seppl/backend/handler/phase_one_handler.py:168-171) |
| PhaseOne.RoundOption | seppl/backend/handler/phase_one_handler.py:70-78 | the quote option of a round: its field, the source text, the round's quotes, the question naming the field and the generation's rater |
| PhaseOne.RoundQuotes | seppl/backend/handler/phase_one_handler.py:62-68 | a round uses the quotes parsed from its generated text, or else the quotes left by the previous round |
| PhaseOne.QuoteRounds | seppl/backend/handler/phase_one_handler.py:55-80 | when no round raises there is exactly one option per round |
| PhaseOne.RoundUnfold | seppl/backend/handler/phase_one_handler.py:57-78 | a round raises when its generation fails, raises `UnboundLocalError` when it has neither generated text nor earlier quotes, and otherwise puts its option before the later rounds' |
| PhaseOne.QuoteRoundOptions | seppl/backend/handler/phase_one_handler.py:55-80 | the loop over the rounds returns the options `QuoteRounds` defines |
| PhaseOne.NoRJOptions | seppl/backend/handler/phase_one_handler.py:50-80 | `NoRJ` runs the reasons round, then the conjectures round |
| PhaseOne.TwoRoundsQuotes | seppl/backend/handler/phase_one_handler.py:55-80 | a first round without generated text raises `UnboundLocalError`; on success there is a reasons option with the first round's quotes and a conjectures option with the second's, or the first's when the second generated nothing |
| PhaseOne.AlignmentOptions | seppl/backend/handler/phase_one_handler.py:102-119 | a quote option with the item's current quotes of the unaligned field and its question, then the reconstruction pre-filled (see also seppl/backend/handler/phase_one_handler.py:141-158) |
| PhaseOne.CatchAllMode | seppl/backend/handler/phase_one_handler.py:177-186 | the catch-all asks for a reconstruction from the source text, the filled quote fields and the filled cues |
| PhaseOne.GeneratedReconstruction | seppl/backend/handler/phase_one_handler.py:199-205 | a text option for the reconstruction holding the postprocessed generated text and its rater |
| PhaseOne.Alternative | seppl/backend/handler/phase_one_handler.py:191-193 | the offered reconstruction is the generated text with line breaks inserted, and there is one exactly when something was generated |
| PhaseOne.CatchAllAssembled | seppl/backend/handler/phase_one_handler.py:196-218 | the generated reconstruction only when it is not empty, then pre-filled quote options for reasons and conjectures, then the reconstruction and every cue field |
| PhaseOne.CatchAllOptions | seppl/backend/handler/phase_one_handler.py:173-218 | a failed generation raises; otherwise the options assembled from the postprocessed answer |
| PhaseTwo.ResponsibleInPhaseTwo | seppl/backend/handler/phase_two_handler.py:30-34 | a phase-2 handler answers only in phase 2, and the catch-all answers every analysis in phase 2 (see also seppl/backend/handler/phase_two_handler.py:81-86, seppl/backend/handler/phase_two_handler.py:107-115, seppl/backend/handler/phase_two_handler.py:161-170, seppl/backend/handler/phase_two_handler.py:200-202) |
| PhaseTwo.IllfFormIsConjectureAlignment | seppl/backend/handler/phase_two_handler.py:161-170 | `IllfForm` tests the alignment of the conjectures, exactly as phase 1's `JNotAlgn` does, and not the well-formedness of the formulas (see also seppl/backend/handler/phase_one_handler.py:125-134) |
| PhaseTwo.NoFormalizationIsIncomplete | seppl/backend/handler/phase_two_handler.py:107-115 | in phase 2 an analysis without any formalization always finds `NoCompleteForm` responsible |
| PhaseTwo.Unless | seppl/backend/handler/phase_two_handler.py:207-217 | a remark is added exactly when the score it is about does not hold |
| PhaseTwo.CatchAllFeedback | seppl/backend/handler/phase_two_handler.py:204-218 | the catch-all's feedback starts with the default phase-2 feedback |
| PhaseTwo.CatchAllFeedbackDefaultIff | seppl/backend/handler/phase_two_handler.py:204-218 | the catch-all's feedback is the bare default exactly when the keys, the coherence with the reconstruction, global validity and local validity all hold |
| PhaseTwo.LocalInvalidityUnmentionedAsWritten | seppl/backend/handler/phase_two_handler.py:215-217 | as written the last remark tests global validity again, so a locally invalid but globally valid analysis gets the bare default; the corrected feedback mentions it |
| PhaseTwo.Feedback | seppl/backend/handler/phase_two_handler.py:36-39 | each handler's feedback starts with the default phase-2 feedback (see also seppl/backend/handler/phase_two_handler.py:88-92, seppl/backend/handler/phase_two_handler.py:118-121, seppl/backend/handler/phase_two_handler.py:172-175, seppl/backend/handler/phase_two_handler.py:204-218) |
| PhaseTwo.FormOptionFor | seppl/backend/handler/phase_two_handler.py:41-51 | the option for a formalization field shows the field's current text when it has one, and no text otherwise, as no suggestion can be generated (see also seppl/backend/handler/phase_two_handler.py:130-145) |
| PhaseTwo.FormOptions | seppl/backend/handler/phase_two_handler.py:123-155 | one option per formalization field, in order, then the reconstruction pre-filled |
| PhaseTwo.NoCompleteFormOptions | seppl/backend/handler/phase_two_handler.py:123-155 | the loop over the formalization fields returns the options `FormOptions` defines |
| PhaseThree.AnnotationOption | seppl/backend/handler/phase_three_handler.py:64-76 | the annotation option holds the source text, the item's reasons and conjectures, and the labels of the premises and conclusions |
| PhaseThree.FormalizationFields | seppl/backend/handler/phase_three_handler.py:90-97 | the three formalizations and the placeholder substitutions are offered, the intermediary conclusions' formalization exactly when the parse does not rule it out |
| PhaseThree.Assembled | seppl/backend/handler/phase_three_handler.py:54-108 | the options open with the reconstruction, then the annotation option |
| PhaseThree.OfferedTextFields | seppl/backend/handler/phase_three_handler.py:57-61 | the text options of a list of fields ask about exactly those fields, in order (see also seppl/backend/handler/phase_three_handler.py:84-88, seppl/backend/handler/phase_three_handler.py:104-108) |
| PhaseThree.AssembledFields | seppl/backend/handler/phase_three_handler.py:54-108 | the fields asked about are the reconstruction, the empty cues, the filled cues and the formalization fields, in that order |
| PhaseThree.AssembledCueOnce | seppl/backend/handler/phase_three_handler.py:79-108 | a cue listed once, and neither the reconstruction nor a formalization field, is asked about exactly once |
| PhaseThree.CueOfferedOnce | seppl/backend/handler/phase_three_handler.py:79-108 | every cue field is asked about exactly once by the catch-all, filled or not |
| PhaseThree.AssembledParts | seppl/backend/handler/phase_three_handler.py:79-108 | the empty cues' options come right after the annotation option, and the filled cues' and formalization fields' options follow them |
| PhaseThree.AssembledAtAbsent | seppl/backend/handler/phase_three_handler.py:79-88 | each empty cue gets an option that is not pre-filled |
| PhaseThree.AssembledAtPresent | seppl/backend/handler/phase_three_handler.py:99-108 | each filled cue gets a pre-filled option |
| PhaseThree.AssembledCueText | seppl/backend/handler/phase_three_handler.py:79-108 | each cue option asks about a cue, shows the cue's text when it is filled and an empty text when it is not |
| PhaseThree.IntermediaryOffered | seppl/backend/handler/phase_three_handler.py:90-97 | the catch-all asks for the intermediary conclusions' formalization exactly when the parse does not rule it out |
| PhaseThree.AssembledOffersForm | seppl/backend/handler/phase_three_handler.py:99-108 | a field that is neither the reconstruction nor a cue is asked about exactly when it is a listed formalization field |
| PhaseThree.AnyConclusionBeforeLast | seppl/backend/handler/phase_three_handler.py:94 | the loop reports whether some statement before the last is a conclusion |
| PhaseThree.CatchAllOptionsBuild | seppl/backend/handler/phase_three_handler.py:50-110 | the catch-all, step by step, returns the options `CatchAllOptions` defines |
| Projects.StateOfAnalysis.constructor | seppl/backend/project.py:52-65 | the older snapshot starts at the given steps with the given options, showing the first option, with the praise as feedback and an empty item |
| Projects.StateOfAnalysis.DeepCopy | seppl/backend/project.py:99 | the copy is a new object with the same fields |
| Projects.StateOfAnalysis.CreateRevision | seppl/backend/project.py:87-108 | a new snapshot showing its first option, at the given step, resuming from this snapshot's step, with the given input, options, feedback and item |
| Projects.Toggled | seppl/backend/project.py:138-143 | the next option index wraps round: always below the number of options, one more before the last option, and 0 after it (see also seppl/utils.py:93-96) |
| Projects.ToggledForward | seppl/backend/project.py:138-143 | before the last option, `k` toggles advance by `k` |
| Projects.ToggledTimesAdd | seppl/backend/project.py:138-143 | toggling `a` times and then `b` times is toggling `a + b` times |
| Projects.ToggleCycle | seppl/backend/project.py:138-143 | toggling as many times as there are options returns to the option shown before |
| Projects.LinkedChain | seppl/backend/project.py:126-136 | handlers each linked to the next, no more than the recursion limit, form a chain a request can be passed along (see also seppl/backend/handler/handler.py:126-127) |
| Projects.Wire | seppl/backend/project.py:133-136 | the evidently intended wiring links each handler to the next one and the last to none |
| Projects.WireAsWritten | seppl/backend/project.py:133-136 | as written, each handler but the last is linked to itself and the last to none |
| Projects.Loop | seppl/backend/project.py:133-136 | the delegations of a handler linked to itself stay on that handler until the recursion limit (see also seppl/backend/handler/handler.py:126-127) |
| Projects.LoopChain | seppl/backend/project.py:133-136 | a handler linked to itself forms a chain that reaches the recursion limit |
| Projects.LoopExhausts | seppl/backend/project.py:133-136 | as written, a request the first handler is not responsible for is passed back to that same handler until `RecursionError`; no other handler is asked (see also seppl/backend/project.py:154) |
| Projects.CreateHandlers | seppl/backend/project.py:127-132 | one new, unlinked handler of each given class, in order, all distinct, with the given collaborators |
| Projects.Project.constructor | seppl/backend/project.py:117-136 | step 0, the fixed project id, a fresh first snapshot with the praise as feedback and an empty item, and one handler of each given class, linked in order as the fourth Findings row corrects it; the snapshot is of the newer class (see Left out) |
| Projects.Project.ToggleVisibleOption | seppl/backend/project.py:138-143 | the next option is shown, wrapping round; without options it raises `ZeroDivisionError` and nothing changes; without a snapshot (after a request no handler answered) it raises `AttributeError` |
| Projects.Project.Update | seppl/backend/project.py:146-157 | the step advances by one; the snapshot becomes the answer of the handler the request is routed to, `None` when no handler answers; without a snapshot it raises `AttributeError`; a raised error leaves the snapshot as it was |
| ProjectStores.PyIndex | seppl/backend/project_store.py:120 | Python's `list[idx]` reads a position exactly when `-n <= idx < n`, counting negative indices from the end |
| ProjectStores.FromEnd | seppl/backend/project_store.py:120 | an index and the same index counted from the end read the same position |
| ProjectStores.LastIndex | seppl/backend/project_store.py:48-50 | index `-1` reads the last element of a non-empty list and raises on an empty one (see also seppl/backend/project_store.py:122-124) |
| ProjectStores.DummyLocalProjectStore.constructor | seppl/backend/project_store.py:81-114 | the given user and project, the project defaulting to `dummy_project`, and a history of one snapshot of that project with the dummy source text and the dummy choice as its only option |
| ProjectStores.DummyLocalProjectStore.GetSofa | seppl/backend/project_store.py:118-120 | the snapshot at the Python index, or `IndexError` outside the history |
| ProjectStores.DummyLocalProjectStore.GetLastSofa | seppl/backend/project_store.py:122-124 | the most recently stored snapshot, which a store built by its constructor always has |
| ProjectStores.DummyLocalProjectStore.GetLength | seppl/backend/project_store.py:126-128 | the number of stored snapshots |
| ProjectStores.DummyLocalProjectStore.StoreSofa | seppl/backend/project_store.py:130-133 | a deep copy of the snapshot is appended and the earlier history is kept unchanged; the copy's evaluator is a new object with the same pipeline, scores, cache, registration order, phases and alternatives, and it is well-formed whenever the original is |
| ProjectStores.DummyLocalProjectStore.ListProjects | seppl/backend/project_store.py:135-136 | the dummy store lists nothing |
| ProjectStores.DummyLocalProjectStore.SetUser | seppl/backend/project_store.py:64-66 | the user changes and nothing else does |
| ProjectStores.DummyLocalProjectStore.SetProject | seppl/backend/project_store.py:68-70 | the project changes and nothing else does |
| ProjectStores.DummyLocalProjectStore.GetProjectAsWritten | seppl/backend/project_store.py:138-139 | as written `get_project` has only a docstring and answers `None` |
| ProjectStores.DummyLocalProjectStore.GetProject | seppl/backend/project_store.py:138-139 | the current project id, as the docstring describes |
| ProjectStores.GetProjectDiscrepancy | seppl/backend/project_store.py:102-103 | a store fresh from its constructor has the project `dummy_project`, which the written `get_project` does not report and the corrected one does (see also seppl/backend/project_store.py:138-139) |
| State.StateOfAnalysis.constructor | seppl/backend/state_of_analysis.py:42-69 | no options when none are given, an item with the source text when no item is given, a fresh evaluator with the pipeline when none is given; the first option is shown, and `_user_input` is unset, so reading `user_input` raises `AttributeError` |
| State.StateOfAnalysis.GetUserInput | seppl/backend/state_of_analysis.py:81-84 | the `user_input` getter returns the recorded input, and raises `AttributeError` while `_user_input` was never set |
| State.StateOfAnalysis.SetInputOptions | seppl/backend/state_of_analysis.py:76-79 | the options change and nothing else does |
| State.StateOfAnalysis.SetUserInput | seppl/backend/state_of_analysis.py:86-89 | the user input changes, the getter then returns it, and nothing else changes |
| State.StateOfAnalysis.DeepCopy | seppl/backend/state_of_analysis.py:103 | a new snapshot, with a new evaluator holding the same pipeline, scores, cache, registration order, phases and alternatives, well-formed whenever the original is (see also seppl/backend/handler/handler.py:91-95) |
| State.StateOfAnalysis.CreateRevision | seppl/backend/state_of_analysis.py:91-112 | a new snapshot showing its first option, at the given step, resuming from this snapshot's step, with the given input, options, feedback, evaluator and item |
| Prototype.StepEffect | seppl/utils.py:78-91 | an empty answer changes nothing; `ASK_STHG_ELSE` only shows the next option; any other answer is appended to the reconstruction and the text and counts one step |
| Prototype.StepConsistent | seppl/utils.py:62-91 | every update keeps the text equal to the project text followed by the reconstruction |
| Prototype.PrototypeOption.constructor | seppl/utils.py:20-22 | a new option holds its snapshot and text and no answer |
| Prototype.PrototypeOption.OnClick | seppl/utils.py:24-26 | the answer is stored on the option, then the snapshot takes a step with the answer of the option it shows, which is this answer when this option is shown |
| Prototype.PrototypeState.constructor | seppl/utils.py:62-72 | the text is also the project; step 0, the praise as feedback, no reconstruction, and the two fixed options, the first one shown |
| Prototype.PrototypeState.Update | seppl/utils.py:78-91 | the snapshot takes the step `Step` defines with the answer of the option it shows, and stays valid |
| Prototype.PrototypeState.IncrementVisibleInputOption | seppl/utils.py:93-96 | the next option is shown, wrapping round, and nothing else changes |
| Prototype.PrototypeState.GetVisibleInputOption | seppl/utils.py:98-100 | the option shown |
| OptionRenderers.GuiFactory | seppl/backend/gui/option_renderer.py:65-92 | the renderer made for an option is the one for the option's own kind, around that option |
| OptionRenderers.TextQuestion | seppl/backend/gui/option_renderer.py:318-324 | the question is shown as given, followed by a link to the argdown syntax exactly when the option asks for the reconstruction |
| OptionRenderers.AnnotationQuestion | seppl/backend/gui/option_renderer.py:137-139 | the question is shown as given, followed by a reminder to update |
| OptionRenderers.LabelsOf | seppl/backend/gui/option_renderer.py:195 | one label per listed statement, in order (see also seppl/backend/gui/option_renderer.py:198) |
| OptionRenderers.Labels | seppl/backend/gui/option_renderer.py:191-199 | the generic premise, a label per premise, the generic conclusion, then a label per conclusion |
| OptionRenderers.LabelInjective | seppl/backend/gui/option_renderer.py:195 | two statement labels are equal only for the same side and statement number (see also seppl/backend/gui/option_renderer.py:198) |
| OptionRenderers.PremiseLabelAt | seppl/backend/gui/option_renderer.py:193-195 | the label of the `i`-th premise sits right after the generic premise's |
| OptionRenderers.ConclusionLabelAt | seppl/backend/gui/option_renderer.py:196-198 | the label of the `i`-th conclusion sits right after the generic conclusion's |
| OptionRenderers.LabelOffered | seppl/backend/gui/option_renderer.py:191-199 | a statement's label is offered exactly when the option lists that statement on its side |
| OptionRenderers.NonOverlappingSelections | seppl/backend/gui/option_renderer.py:129-135 | the check passes exactly when the selections, sorted by start, each end no later than the next starts |
| OptionRenderers.AdjacentIffDisjoint | seppl/backend/gui/option_renderer.py:131-135 | for non-empty selections sorted by start, comparing neighbours decides whether any two overlap |
| OptionRenderers.DisjointIffBag | seppl/backend/gui/option_renderer.py:131 | whether non-empty selections are pairwise disjoint does not depend on their order |
| OptionRenderers.NonOverlappingMeansDisjoint | seppl/backend/gui/option_renderer.py:129-135 | non-empty selections pass the check exactly when no two of them overlap, whatever their order |
| OptionRenderers.SelectionsOf | seppl/backend/gui/option_renderer.py:148-167 | at most one selection per quote; quotes that do not occur in the body are skipped |
| OptionRenderers.SelectQuotes | seppl/backend/gui/option_renderer.py:148-187 | each loop of `initial_selection` builds the selections `SelectionsOf` defines |
| OptionRenderers.GetInitialSelection | seppl/backend/gui/option_renderer.py:141-189 | `initial_selection` returns the selections `InitialSelection` defines: none for an empty body, else the reasons' and then the conjectures' |
| OptionRenderers.Filter | seppl/backend/gui/option_renderer.py:207-210 | the selections kept for a side are exactly those labelled for that side (see also seppl/backend/gui/option_renderer.py:222-225) |
| OptionRenderers.FilterCounts | seppl/backend/gui/option_renderer.py:207-210 | the selections of a side are among the selections, each at most as often as it was selected (see also seppl/backend/gui/option_renderer.py:222-225) |
| OptionRenderers.Statements | seppl/backend/gui/option_renderer.py:212-220 | reading a statement number from a label raises only `ValueError` (see also seppl/backend/gui/option_renderer.py:227-235) |
| OptionRenderers.StatementsPrefixFails | seppl/backend/gui/option_renderer.py:212-220 | once one selection's statement cannot be read, the whole list raises |
| OptionRenderers.StatementsLast | seppl/backend/gui/option_renderer.py:212-220 | a successful conversion ends with the conversion of the last selection |
| OptionRenderers.StatementsConvert | seppl/backend/gui/option_renderer.py:212-220 | each quote is the conversion of the selection at the same position: its text, its start and the statement its label names (see also seppl/backend/gui/option_renderer.py:227-235) |
| OptionRenderers.SortedReadable | seppl/backend/gui/option_renderer.py:211 | sorting the selections of a side keeps their labels readable (see also seppl/backend/gui/option_renderer.py:226) |
| OptionRenderers.SideSorted | seppl/backend/gui/option_renderer.py:207-211 | the sorted selections of a side still have readable labels (see also seppl/backend/gui/option_renderer.py:222-226) |
| OptionRenderers.SelectSide | seppl/backend/gui/option_renderer.py:207-210 | the comprehension keeps the selections of the side, and raises `IndexError` when some selection has no label (see also seppl/backend/gui/option_renderer.py:222-225) |
| OptionRenderers.BuildStatements | seppl/backend/gui/option_renderer.py:212-220 | each statement loop returns the quotes `Statements` defines (see also seppl/backend/gui/option_renderer.py:227-235) |
| OptionRenderers.PostprocessInput | seppl/backend/gui/option_renderer.py:201-240 | `postprocess_input` returns the annotation `Postprocess` defines |
| OptionRenderers.ReadyIffNonOverlapping | seppl/backend/gui/option_renderer.py:126-127 | overlapping selections give the empty answer without raising, and an answer is ready exactly when the selections do not overlap (see also seppl/backend/gui/option_renderer.py:201-205) |
| OptionRenderers.PostprocessSides | seppl/backend/gui/option_renderer.py:201-240 | the quotes of each side are that side's selections in order of start, each keeping its selection's text and start and referring to the statement its label names |
| OptionRenderers.SelectionCovers | seppl/backend/gui/option_renderer.py:151-167 | a quote that occurs in the body becomes one selection covering its text, at its own position when it has one and at the first occurrence otherwise, with one offered label |
| OptionRenderers.SpecificLabelReadsBack | seppl/backend/gui/option_renderer.py:153 | a selection labelled `P<k>` (or `C<k>`) belongs to that side only and reads back as statement `k` (see also seppl/backend/gui/option_renderer.py:209, seppl/backend/gui/option_renderer.py:216) |
| OptionRenderers.GenericLabelReadsBack | seppl/backend/gui/option_renderer.py:155 | a selection with the side's generic label belongs to that side only and reads back as -1 (see also seppl/backend/gui/option_renderer.py:209, seppl/backend/gui/option_renderer.py:216) |
| OptionRenderers.SelectionRoundTrip | seppl/backend/gui/option_renderer.py:148-167 | a quote's initial selection reads back on the quote's side only, as the quote's statement when its label is offered and as -1 otherwise (see also seppl/backend/gui/option_renderer.py:201-235) |
| SofaRenderers.Lines | seppl/backend/gui/sofa_renderer.py:52-79 | one line per formalization, in order |
| SofaRenderers.Texts | seppl/backend/gui/sofa_renderer.py:84 | the texts joined are the lines' texts, in order |
| SofaRenderers.FormalizationOrder | seppl/backend/gui/sofa_renderer.py:80-82 | the lines are sorted by label and are exactly the formalizations' lines; among equal labels the premises come first, then the intermediary conclusions, then the conclusions, each in its own order |
| SofaRenderers.BuildLines | seppl/backend/gui/sofa_renderer.py:52-79 | each loop appends the lines `Lines` defines |
| SofaRenderers.GetFormalizationList | seppl/backend/gui/sofa_renderer.py:49-85 | `get_formalization_list` returns the text `FormalizationList` defines |
| SofaRenderers.Found | seppl/backend/gui/sofa_renderer.py:240 | the quotes that occur in the source, at most one entity per quote |
| SofaRenderers.Spans | seppl/backend/gui/sofa_renderer.py:237-251 | the search for the quotes' spans raises only `ValueError` |
| SofaRenderers.SpansFound | seppl/backend/gui/sofa_renderer.py:239-251 | a quote found from the pointer contributes its entity, and the search goes on from its end |
| SofaRenderers.SpansFacts | seppl/backend/gui/sofa_renderer.py:237-251 | each entity found covers exactly the text of one quote that occurs in the source, in the quotes' order, one per such quote, with the quote's label, and the entities do not overlap |
| SofaRenderers.GetDsEntities | seppl/backend/gui/sofa_renderer.py:219-257 | `get_ds_entities` returns the entities `DsEntities` defines for the kind, none for an unknown kind |
| SofaRenderers.FindSpans | seppl/backend/gui/sofa_renderer.py:237-251 | the loop returns the entities `Spans` defines from position 0 |
| SofaRenderers.OutOfOrderQuoteRaises | seppl/backend/gui/sofa_renderer.py:240-241 | a quote that occurs only before an earlier quote's end makes `str.index` raise `ValueError` |
| SofaRenderers.AdjacentSorted | seppl/backend/gui/sofa_renderer.py:237-251 | entities that each end before the next starts are sorted by start |
| SofaRenderers.DisplacySorted | seppl/backend/gui/sofa_renderer.py:259-285 | the entities shown are sorted by start in every case, and with both kinds present they are exactly the conjectures' and the reasons' together |

## Left out

- I/O is not modelled. This covers Firestore and the GitHub scripts, every Streamlit, graphviz, seaborn and displacy `render` method, the colour palettes, the HTML templating and `load_from_firestore`. None of it affects the engine's state.
- The HTTP pipeline (`DA2MosecPipeline`) and its memoisation are replaced by a `Pipeline` record of functions given as a parameter. The record holds the raw generation, the default reconstruction, and the coherence verdicts that the loss-based metrics (`RecoCohSource`, `ReasConjCohReco`, `FormCohReco`) compare against their thresholds. The float losses themselves are not modelled.
- Calls into the deepa2 library and Prover9 are fields of the `Externals` record, given as parameters. This covers `DeepA2Parser`, `DeepA2Layouter`, `metrics.ArgdownHandler`'s checks, `parse_as_folf`, the prover, the spans of `INFERENCE_PATTERN_REGEX` and `parse_quotes`. `DA2_ANGLES_MAP` is a constructor parameter of the evaluator, and `GenerativeMode.from_keys` is a value passed in.
- Float arithmetic is read as exact real arithmetic: `1 - 0.9**n` is computed on reals, and `round(score, 5) >= 1` becomes `score >= 0.999995`. Rounding errors of binary floating point are not modelled.
- Python's `int()` is modelled on an optional sign followed by ASCII decimal digits. Surrounding whitespace, digit-group underscores and non-ASCII decimal digits, which `int()` also accepts, are treated as not an integer.
- Text.Lower: Python's `str.lower` lowers every Unicode upper-case letter; the model lowers only ASCII and Latin-1 ones (`A`-`Z`, `À`-`Þ` without `×`). Conclusions that differ only in the case of other letters match in the source but not in the model.
- An absent `source_text` (`None`) is modelled as the empty string, in the items built by `NewItem` and in the options built from them.
- An absent list field of an item (`None`) and an empty list are the same value in the model. The source tells them apart. One visible difference is `update_score`'s test of whether a critical field changed: the source sees `None` becoming `[]` as a change and recalculates, while the model sees no change and keeps the score.
- A parsed reconstruction is assumed to hold at least one statement (`Argument` in `analysis.dfy`). The DeepA2 parser is an external library. Should it return a parse with no statements, the source would raise `IndexError` wherever it reads the last statement (`statements[-1]`, da2metric.py:65, 288, 592 and phase_zero_handler.py:209) and `ZeroDivisionError` at da2metric.py:650. The model cannot express these two errors.
- `userinput.py` defines no behaviour: its four classes are empty, so `handle` calling `user_input.update_da2item(...)` (handler.py:92) raises `AttributeError` as written. The model does not raise it; applying the learner's input is modelled as replacing one named field of the item.
- `option_renderer.py` imports `INPUT_TYPES` from `userinput.py`, which does not define it, so importing the renderer module raises `ImportError`. The model does not raise it and models the renderers as if the import succeeded.
- The handlers of phases 1 to 3 read `request.metrics` and `request.new_da2item`, which the request class does not define. For responsibility, the model reads the incoming snapshot's evaluator and item, since `handle` decides responsibility before it applies the input. For feedback and options, it reads the revised item and the updated evaluator that `handle` passes to `get_feedback` and `get_input_options`.
- `handle` calls `get_feedback` with keyword arguments that the phase 1 to 3 signatures do not accept. The model uses the evidently intended interface.
- `FORM_FIELDS`, `CUE_FIELDS` and `get_premise_conclusion_labels` are not defined in the files of this model. The form fields are taken as premises, intermediary conclusions and conclusion formalized, in that order. The cue fields are those of the phase-0 handler. The labels are passed in.
- `ReasonsConjecturesOption` is not defined in the files of this model. It is modelled as an option that carries the reasons, the conjectures and the labels offered.
- The old handler modules (`seppl/backend/handler.py` and the argdown, cue, quote and formalization handlers) are stubs and are not part of this model.
- `RecursionLimit` stands for Python's default recursion limit of 1000, which bounds the length of the handler chain.
- The older `StateOfAnalysis` in `project.py` leaves out its metric registry. The class that registry is built from (`DA2Metric`) is not defined anywhere, so importing `project.py` raises `ImportError`; the model does not raise it.
- State.StateOfAnalysis.constructor: `state_of_analysis.py` imports and calls `SofaMetrics`, which `da2metric.py` does not define (its registry class is `SofaEvaluator`), so importing the module raises `ImportError`. The model builds a `SofaEvaluator` instead and does not raise it.
- Projects.Project.constructor: the source builds the older `StateOfAnalysis` of `project.py`, whose options stay `None` when none are given and whose registry class is undefined. The model builds the newer `State.StateOfAnalysis`, which maps `None` options to `[]` and holds a fresh `SofaEvaluator`, because the handler chain reads that class's evaluator. So the first snapshot's options are `[]` rather than `None`.
- Projects.Project.ToggleVisibleOption: on a first snapshot built without options, the source raises `TypeError` from `len(None)`. The model holds `[]` there (see the line above), so it reports `ZeroDivisionError` instead.
- InputOptions.AnnotationAsQuotesLoop, InputOptions.IsAnnotationLoop, InputOptions.NewQuoteOption, InputOptions.NewQuoteOptionValid, InputOptions.QuoteOptionFor, InputOptions.QuoteOptions and InputOptions.CreateQuoteOptions build on the corrected link-target pattern of the first Findings row (a target stops at `)`). The pattern as written is modelled by `AnnotationAsQuotesAsWritten` and `IsAnnotationAsWritten`. The two disagree whenever a link target is followed by `)` before the next space: adjacent quotes (`AdjacentQuotesMergeAsWritten`), a quote inside parentheses (`ParenthesisedQuote`) and hidden out-of-order quotes (`OutOfOrderAnnotation`).
- `Project` takes the handler kinds and their tools as parameters. The handler classes it names (`ArgdownHandler` and others) are not part of this model.
- In `option_renderer.py`, the query methods and `help_text` are not modelled, because they only call Streamlit. The same holds for `ChoiceOptionStRenderer` and `QuoteOptionStRenderer`.
- `TextOptionStRenderer.ready` is not modelled. For the three formalization fields it rejects an input that the DeepA2 parser's `parse_formalization` does not parse, or that has an unparsed entry. For the placeholder-keys field it does the same with `parse_keys`. Every other field is accepted. The parser is an external library.
- `TextOptionStRenderer.initial_text` and `TextOptionStRenderer.postprocess_input` are not modelled. On the list fields (the three formalization fields and the keys) they call `TextOption.split_da2_list` and `TextOption.join_da2_list`. No file defines these methods (`TextOption` in `inputoption.py` has neither), so on a list field both methods raise `AttributeError` as written. The exception is that `initial_text` with no initial text returns `None` first. On other fields, both return their input unchanged.
- The prototype `StateOfAnalysis` of `seppl/utils.py` leaves out its `render` and `key_metrics` methods, which only display state.
- `InferenceRater.rate_and_submit` is not implemented in the source and is left out.
- The test fixture of `postprocess_argdown` is not stated as a concrete example. Its properties are proved for every input instead (same length, only spaces turned into newlines, and exactly at the label matches).
- OptionRenderers.NonOverlappingMeansDisjoint: the equivalence between the sorted-neighbour test and pairwise disjointness is stated only for selections that each cover at least one character. An empty selection can sit inside another one without failing the neighbour test.
- OptionRenderers.GuiFactory: the option kinds form a closed datatype, so the `ValueError` for an unknown kind cannot arise.

## Findings

| source | as written | input that shows it | evidently intended | confidence | as-written member | corrected member |
|---|---|---|---|---|---|---|
| seppl/backend/inputoption.py:56 | The link-target pattern `[^ ]*` of `_REGEX_QUOTE` runs on past the closing `)` until the next space. Two quotes written next to each other therefore read back as one match. | source `ab`, quotes `a` (ref 1) and `b` (ref 2): the annotation `[a](1)[b](2)` decodes to the single quote `a` with target `1)[b](2` and `ref_reco` -1 | a link target stops at `)`, so that decoding the annotation gives back the quotes | not executed | InputOptions.AdjacentQuotesMergeAsWritten | InputOptions.AnnotationRoundTrip |
| seppl/backend/handler/phase_zero_handler.py:51-58, 247-252 | The phase-0 handlers derive from the abstract handler, whose `is_responsible` returns `None`. `super().is_responsible(...) and condition` is therefore never true, and `super().get_feedback(...)` reaches the abstract stub as well, which returns `None`. The phase-0 feedback and option members model the restored `PhaseZeroHandler` base, the only hierarchy under which they are reached. | any analysis in phase 0: even the catch-all declines it | responsible iff the phase is 0 and the handler's condition holds | not executed | PhaseZero.CatchAllSilentAsWritten | PhaseZero.ResponsibleInPhaseZero |
| seppl/backend/handler/phase_two_handler.py:215-217 | The catch-all's sub-argument message is keyed on `GlobalDeductiveValidityScore`, so local invalidity is never reported on its own. | well-formed keys, coherence and global validity hold, but local validity is 0: the feedback is only the default text | the sub-argument message is keyed on `LocalDeductiveValidityScore` | not executed | PhaseTwo.LocalInvalidityUnmentionedAsWritten | PhaseTwo.CatchAllFeedbackDefaultIff |
| seppl/backend/project.py:133-136 | The wiring loop sets `handlers[i-1]`'s next handler to `handlers[i-1]` itself. | two handlers where the first is not responsible: the request goes back to the first handler until the recursion limit | each handler is linked to the next one | not executed | Projects.WireAsWritten | Projects.Wire |
| seppl/backend/project_store.py:138-139 | The body of `get_project` is only a docstring, so it returns `None`. | any store: `get_project()` is `None` although its project id is `"dummy_project"` | return the stored project id | not executed | ProjectStores.DummyLocalProjectStore.GetProjectAsWritten | ProjectStores.DummyLocalProjectStore.GetProject |
