# Writing assistant: a Dafny model of its text analysers

This project models the text logic of a browser writing-assistant extension. The extension has
four surfaces. Each one carries its own copy of the analysers, and each copy is modelled in its
own module:

- the in-page toolbar (`content.js`, module `Content`). It offers grammar hints, tone and
  sentiment, a summary, three rephrasings, expand/condense, simplification, list formats, the
  theme cycle and the word counter.
- the side panel (`sidepanel.js`, module `SidePanel`). It offers the statistics line, grammar
  with passive-voice and repetition checks, tone with advice, a summary, rephrasings, expansion,
  and the quote escaping of the results it renders.
- the popup (`popup.js`, module `Popup`). It covers settings defaulting, the snippet list, the
  statistics reset and the writing-style profile with its most common phrases.
- the background worker (`background.js`, module `Background`). It provides grammar, tone,
  sentiment, suggestions and the stored writing statistics.

Four shared modules hold what the copies have in common:

- `Text` covers JavaScript's `\s`, `trim`, `split` on `/\s+/`, `/[.!?]+/` and on one character,
  `indexOf`, `join` and ASCII `toLowerCase`.
- `Words` covers case-insensitive whole-word replacement, `s.replace(/\b(a|b)\b/gi, r)`, as a
  left-to-right scan. It also covers chains of such replacements.
- `Numerals` covers `String(n)` and the order in which `Object.entries` lists the keys of a
  plain object.
- `Analysis` holds the shared result records and counting rules.

Averages are never divided. A comparison such as `avg > 6` is decided by cross-multiplying
counts, and lemmas connect that form to the `real` quotient the source computes, with lengths
counted in Unicode scalar values rather than UTF-16 code units (see "## Left out"). Confidences
are kept in hundredths and sentiment scores in tenths. State that the source updates in place
is a class: the popup's snippet list and the worker's statistics record. Loops that build
tables are methods with invariants: the repetition counter, the phrase counter and the
simplification loop. Each of these methods is proved against a specification function.

## Model

| member | source | states |
|---|---|---|
| Text.Trim | sidepanel.js:41 | no longer than the input; empty iff the input is all whitespace; otherwise it starts and ends with a non-whitespace character |
| Text.TrimStrips | sidepanel.js:41 | the trimmed text is a slice of the input with only whitespace before it and only whitespace after it |
| Text.SplitRuns | sidepanel.js:43 | JS `split` on a run class: at least one field, and no field holds a separator |
| Text.SplitRunsIsSplit | sidepanel.js:43 | the fields, put back together with the separator runs between them, give the text; each run is non-empty and all separators, and each field between two runs is non-empty, so the runs are maximal and a leading or trailing run leaves an empty field |
| Text.SplitRunsUnique | sidepanel.js:43 | any cut of the text into separator-free fields and maximal runs has exactly the fields `split` returns |
| Text.SplitWs | content.js:331 | `split(/\s+/)` always yields at least one field; its fields are those of the run split on whitespace |
| Text.KeepNonBlank | sidepanel.js:45 | every kept field is non-blank, and fields free of terminators stay free of them |
| Text.KeepNonBlankMembers | sidepanel.js:45 | a field is kept iff it is one of the fields and non-blank |
| Text.KeepNonBlankAppend | sidepanel.js:45 | the filter keeps a single field iff it is non-blank and distributes over concatenation: exactly the non-blank fields, in their order |
| Text.SplitSentences | sidepanel.js:45 | every sentence is non-blank and free of `.`, `!` and `?`; a string is a sentence iff it is a non-blank field of the split on `/[.!?]+/` |
| Text.IndexOf | content.js:455 | -1 exactly when the pattern is absent; otherwise the first position where it occurs |
| Text.CountChar | content.js:485 | the count is the character's number of occurrences in the text: at most the length, and zero exactly when the character is absent |
| Text.LowerIdentity | content.js:501 | a text without upper-case ASCII letters is its own lower case |
| Text.Lower | content.js:501 | same length, each character the lower case of the input's character at that position, and no upper-case ASCII letter remains |
| Text.LowerChar | content.js:501 | maps each letter A-Z to the code point 32 higher (its a-z counterpart), keeps every other character, and keeps the character's class (word character, whitespace, terminator) |
| Text.SplitWsLength | popup.js:307-308 | the field lengths of `split(/\s+/)` sum to the text's non-whitespace count |
| Text.ResplitSentences | content.js:531-535 | clean sentences joined by ". " and closed by "." split back into exactly those sentences |
| Text.SplitAtJoin | content.js:620-627 | lines without a newline, joined by '\n' and split at '\n', give the lines back |
| Text.SplitWsJoin | content.js:331 | words joined by single spaces split on whitespace back into the words |
| Text.JoinLength | sidepanel.js:44 | a join is as long as its parts plus one separator between each pair |
| Text.TrimOfTrimmed | sidepanel.js:41 | a string already in the shape `trim` leaves is its own trim |
| Words.FirstAlt | content.js:543-556 | the alternation picks the first alternative in order that matches as a whole word |
| Words.ReplaceChangesIffOccurs | content.js:603-604 | with a replacement shorter than every alternative, the text changes iff some alternative occurs as a whole word |
| Words.ReplacePreservesOtherWords | content.js:543-556 | replacing removes every alternative; every other whole word except the replacement occurs after iff before |
| Words.ChainIdentity | content.js:543-556 | a text in which no rule finds its word leaves the chain unchanged |
| Words.ChainEliminatesAll | content.js:543-556 | when no rule writes back a word that it or an earlier rule looks for, no looked-for word survives the chain |
| Words.ChainKeepsPlainText | content.js:543-556 | a text holding none of the looked-for words comes out unchanged |
| Words.ChainStep | content.js:601-607 | rule i changes the partly rewritten text iff its word occurs in the original text |
| Words.ChainAdvance | content.js:598-608 | one more rule: one more replacement applied, and the count grows by one iff its word occurs |
| Words.CountFound | content.js:598-608 | the count of rules whose word occurs is at most the number of rules |
| Words.NoneFound | content.js:598-608 | a text holding none of the words counts zero |
| Numerals.Decimal | sidepanel.js:141 | `String(n)`: at least one digit, digits only, and no leading zero |
| Numerals.DecimalRoundTrip | sidepanel.js:141 | reading the digits of `String(n)` back gives n |
| Numerals.CanonicalRoundTrip | sidepanel.js:141 | every canonical numeral is `String` of its value |
| Numerals.DecimalInjective | sidepanel.js:141 | different counts give different numerals |
| Numerals.OwnKeysOrder | sidepanel.js:137 | `Object.entries` lists each inserted key once: array indices first in ascending order, then the other keys in insertion order |
| Numerals.OwnKeysNoIndices | popup.js:337 | when no key is an array index, enumeration order is insertion order |
| Numerals.SpacedKeyIsNamed | popup.js:331 | a key holding a space is never an array index |
| Numerals.OwnKeysDistinct | sidepanel.js:137 | keys inserted without repeats are enumerated without repeats, and they are exactly the inserted keys |
| Analysis.RatioCompare | content.js:490-493 | `a/b > k` iff `a > k*b`, and `a/b < k` iff `a < k*b` |
| Analysis.RatioCompareFraction | sidepanel.js:168 | `a/b < p/q` iff `a*q < p*b` |
| Analysis.CountIncludedDistinct | content.js:502-503 | for a list without repeats, the filter count is the number of distinct list words present |
| Analysis.TokenTotal | popup.js:304-305 | the sum of per-sentence field counts is at least the number of sentences |
| Analysis.TokenTotalSum | popup.js:304-305 | one sentence contributes its field count, and the total of two lists put together is the sum of their totals: the total is the sum of the per-sentence field counts |
| Analysis.EmptyStats | popup.js:221-226 | all counters zero, and exactly the three tones, each at zero |
| Analysis.PrefixedFree | content.js:620-627 | lines built from newline-free sentences hold no newline |
| Content.AnalyzeGrammar | content.js:445-478 | at most three issues; spacing iff a double space, punctuation iff the text is longer than 10 and its trimmed form ends without a terminator, capitalization iff the first character is not A-Z; each issue at its position with its message |
| Content.ToneOf | content.js:483-496 | formal iff average word length > 6 and no `!`; casual iff not formal and (more than one `!` or average < 4); otherwise neutral |
| Content.MoodOf | content.js:498-514 | positive iff more distinct positive list words are present than negative ones; negative iff fewer |
| Content.AnalyzeTone | content.js:480-520 | the tone and mood as defined, confidence 0.85/0.80/0.75 by tone and score 0.7/0.3/0.5 by mood |
| Content.SummarizeText | content.js:522-538 | two sentences or fewer: both forms are the text itself |
| Content.SummaryResplits | content.js:525-537 | for three or more sentences, the brief form splits back into the first sentence, and the detailed form into the first, middle and last |
| Content.BriefResplits | content.js:531 | the brief summary re-splits to its one sentence |
| Content.DetailedResplits | content.js:532-535 | the detailed summary re-splits to its three sentences |
| Content.RephraseRemovesWords | content.js:540-559 | every word a rephrasing looks for is absent from it, as a whole word in any case |
| Content.RephraseKeepsPlainText | content.js:540-559 | a text with none of a table's words is returned unchanged by that rephrasing |
| Content.ExpandText | content.js:561-574 | condensed iff more than 50 fields; when expanded, the result is exactly the text followed by the fixed sentence |
| Content.CondensedLines | content.js:564-573 | for a newline-free text, the condensed form has one line per sentence (at most three), the i-th being `i+1. ` and that sentence trimmed |
| Content.ChangeMessage | content.js:610-614 | the message is "Text is already simple!" iff nothing was simplified |
| Content.SimplifyText | content.js:587-615 | the loop's count is the number of table words that occur in the input, and the text is the table chain's result |
| Content.SimplifyLoop | content.js:598-608 | the loop over the table computes the chain and counts the changing entries |
| Content.SimplifyStep | content.js:601-607 | table entry i changes the partly simplified text iff its word occurs in the original |
| Content.SimplifyNoWriteAhead | content.js:590-596 | no simple word and no earlier complex word is a later complex word |
| Content.SimplifyNoRewriteBack | content.js:590-596 | no simple word is a complex word of the same or an earlier entry |
| Content.SimplifyRemovesComplexWords | content.js:587-615 | after simplification none of the complex words remains |
| Content.BulletLines | content.js:617-628 | no sentence: four empty strings; otherwise, for a newline-free text, each rendering has one line per sentence with its marker and the trimmed sentence |
| Content.ThemeIndex | content.js:181-183 | the index of the theme in the list, or -1 when absent |
| Content.NextTheme | content.js:180-190 | the theme after a click is always one of the three themes |
| Content.ThemeCycle | content.js:180-190 | three clicks return every theme and every click changes it; an unset theme moves to light and an unknown one to auto |
| Content.CounterWords | content.js:327-339 | zero iff the trimmed text is empty |
| Content.CounterWordsOfWords | content.js:331 | words joined by single spaces count as that many |
| SidePanel.UpdateStats | sidepanel.js:40-50 | the character count is the trimmed length; a blank text counts no words and no sentences; any other text at least one word |
| SidePanel.StatsOfWords | sidepanel.js:43-45 | words joined by spaces count as that many words, with letters plus spaces as characters; without a terminator they form one sentence |
| SidePanel.PassiveExample | sidepanel.js:120 | an auxiliary, a space and a word ending in "ed" is always flagged |
| SidePanel.PassiveIgnoresCase | sidepanel.js:120 | the passive pattern matches at i iff it matches the lower-cased text there |
| SidePanel.ParticipleAtLower | sidepanel.js:120 | the participle test is insensitive to letter case |
| SidePanel.PatternIssues | sidepanel.js:100-126 | each of the spacing, punctuation and passive-voice issues is present iff its test fires, each at most once, spacing first and passive voice last |
| SidePanel.ReportPatterns | sidepanel.js:100-126 | the three tests push exactly the pattern issues |
| SidePanel.TallyObjectKeys | sidepanel.js:129-135 | as written, the count object's own keys are the tokens longer than four characters other than "__proto__", each once in the key order |
| SidePanel.TallyObjectValues | sidepanel.js:129-135 | as written, each own property holds the token's number of occurrences, except "constructor", which holds a non-number |
| SidePanel.CountWords | sidepanel.js:129-135 | the loop, reading through the prototype and ignoring a primitive assigned to `__proto__`, builds exactly the count object as written |
| SidePanel.ObjectRepeatedKeys | sidepanel.js:137-139 | a key is reported iff it is listed, is an own property and holds a number above three; no key is reported twice |
| SidePanel.ObjectIssuePerKey | sidepanel.js:137-145 | one repetition issue per reported key, in key order, carrying the key's count |
| SidePanel.ReportRepeats | sidepanel.js:137-145 | the entries pass yields one issue per entry whose value is a number above three, in `Object.entries` order |
| SidePanel.CheckGrammar | sidepanel.js:96-148 | the pattern issues followed by the repetition issues of the count object as written |
| SidePanel.RepetitionReportAsWritten | sidepanel.js:129-145 | as written, every lower-cased token longer than four characters occurring more than three times is named exactly once with its count, except "constructor" and "__proto__", which are never named |
| SidePanel.InheritedSkipped | sidepanel.js:129-145 | tokens that are all inherited names yield no repetition issue as written |
| SidePanel.InheritedNeverReported | sidepanel.js:129-145 | an inherited name written four times is reported once by the corrected check and not at all as written |
| SidePanel.FirstSeenKeys | sidepanel.js:129-135 | corrected: each token longer than four characters appears in the key order exactly once |
| SidePanel.TallyCounts | sidepanel.js:129-135 | corrected: the count object maps each token longer than four characters to its number of occurrences, and has no other key |
| SidePanel.RepeatedKeys | sidepanel.js:137-139 | corrected: the reported keys are exactly the keys occurring more than three times, in order |
| SidePanel.IssuePerRepeatedKey | sidepanel.js:137-145 | corrected: one repetition issue per repeated key, in key order, carrying its count |
| SidePanel.CountWordsCorrected | sidepanel.js:129-135 | on a prototype-less object the loop builds exactly the corrected counts, and records the order in which keys were first added |
| SidePanel.ReportRepeatsCorrected | sidepanel.js:137-145 | on the corrected counts, one issue per key occurring more than three times, in `Object.entries` order |
| SidePanel.CheckGrammarCorrected | sidepanel.js:96-148 | the pattern issues followed by one repetition issue per repeated key, on a prototype-less count object |
| SidePanel.RepetitionReport | sidepanel.js:129-145 | corrected: every lower-cased token longer than four characters occurring more than three times is named exactly once, with its count |
| SidePanel.TallyObjectOrder | sidepanel.js:129-135 | without "__proto__" among the tokens, the object as written gains its keys in the corrected order |
| SidePanel.ObjectIssuesAgree | sidepanel.js:137-145 | keys holding their plain counts give the same issues on the object as on the corrected counts |
| SidePanel.AsWrittenMatchesCorrected | sidepanel.js:129-145 | when no token is an inherited name, the code as written reports exactly what the corrected check reports |
| SidePanel.LongSentencesCount | sidepanel.js:154-171 | more than 20 words per sentence on average iff the field count exceeds 20 times the sentence count |
| SidePanel.WordLengthCount | sidepanel.js:154-171 | the two word-length thresholds (above 6, below 4.5), as comparisons of counts |
| SidePanel.ToneOf | sidepanel.js:154-171 | formal iff long words in long sentences; casual iff not formal and (a `!` or average < 4.5); otherwise neutral |
| SidePanel.MoodOf | sidepanel.js:174-190 | positive or negative by the number of distinct list words present |
| SidePanel.SentimentScore | sidepanel.js:184-190 | the score lies in 1..9 tenths and is above, at or below 5 exactly as the mood is positive, balanced or negative |
| SidePanel.GetToneSuggestions | sidepanel.js:202-220 | two pieces of advice for a formal or casual tone, one for a positive or negative mood; none for neutral and balanced |
| SidePanel.AnalyzeTone | sidepanel.js:151-199 | the tone with confidence 85/80/75, the mood with its score, and the advice for both |
| SidePanel.KeySentences | sidepanel.js:244-248 | a sentence is kept iff it is one of the sentences and holds an importance word |
| SidePanel.DetailedCount | sidepanel.js:240-241 | `max(2, ceil(n/3))`: at least two, at least a third of n, and at most n when n > 2 |
| SidePanel.SummarizeText | sidepanel.js:223-256 | two sentences or fewer: the text itself for all three forms; otherwise the summary of the sentences |
| SidePanel.SummarizeSentences | sidepanel.js:236-255 | first and last, the first third, and up to three key points (or the first three sentences when none holds an importance word) |
| SidePanel.KeyPoints | sidepanel.js:244-253 | the key sentences or else the first sentences, at most three |
| SidePanel.SummaryResplits | sidepanel.js:237-241 | the brief summary re-splits into the first and last sentence; the detailed one into the first `max(2, ceil(n/3))` |
| SidePanel.ShortenedSentence | sidepanel.js:274-280 | a sentence cut to fifteen words is clean, and its words are the first fifteen of the trimmed sentence |
| SidePanel.SimpleResplits | sidepanel.js:274-280 | the simple version re-splits into one sentence per sentence of the text, each holding at most its first fifteen words |
| SidePanel.FormalNoRewriteBack | sidepanel.js:263-271 | no formal replacement is a word or phrase that the same or an earlier rule looks for |
| SidePanel.CreativeNoRewriteBack | sidepanel.js:283-290 | no creative replacement is a word that the same or an earlier rule looks for |
| SidePanel.RephraseRemovesWords | sidepanel.js:259-293 | the creative version holds none of the words it replaces, and the formal one neither "thing" nor "stuff" |
| SidePanel.RephraseKeepsPlainText | sidepanel.js:259-293 | a text with none of a table's words passes that chain unchanged |
| SidePanel.ExpandText | sidepanel.js:296-323 | more than 50 fields: the first five sentences as bullets; otherwise the text plus two fixed sentences; the original is kept |
| SidePanel.CondensedBullets | sidepanel.js:299-322 | a newline-free text condenses to one bullet line per sentence, at most five |
| SidePanel.EscapeQuotesPerChar | sidepanel.js:602-604 | the three replace passes equal escaping each character once; no pass touches what an earlier one inserted |
| SidePanel.EscapeQuotesShape | sidepanel.js:602-604 | the escaped text has no line feed, and every quote in it follows a backslash |
| SidePanel.EscapeQuotesMisreads | sidepanel.js:602-604 | a text holding `\n` reads back as a line feed, and a lone backslash or a carriage return breaks the literal |
| SidePanel.EscapeJsRoundTrip | sidepanel.js:602-604 | with backslash and carriage return escaped too, the literal reads back as exactly the text |
| Popup.Or | popup.js:20-27 | `v \|\| d`: v when truthy, else d |
| Popup.LoadSettings | popup.js:20-27 | privacy mode true only when missing; theme auto, language en, switches false and profile null for falsy values |
| Popup.LoadSettingsIdempotent | popup.js:20-27 | loading already-loaded settings changes nothing; theme and language are never falsy |
| Popup.SpliceStart | popup.js:131 | `splice` start clamping: within bounds, or counted from the end when negative |
| Popup.SnippetStore.constructor | popup.js:72-76 | the list is the stored one |
| Popup.SnippetStore.SaveSnippet | popup.js:257-272 | the list becomes the saved list |
| Popup.SnippetStore.DeleteSnippet | popup.js:129-136 | confirmed: the list after `splice(index, 1)`; otherwise unchanged |
| Popup.SavedEffect | popup.js:258-266 | a blank title or content keeps the list; otherwise exactly one entry with the trimmed fields and the clock value is appended and the others are kept |
| Popup.SplicedEffect | popup.js:131 | a valid index removes exactly that entry; past the end nothing changes; -1 removes the last |
| Popup.ResetStats | popup.js:219-232 | confirmed: all zeros with the three tones at zero; otherwise unchanged |
| Popup.Bigrams | popup.js:330-333 | one phrase per adjacent pair of words, the i-th being word i, a space and word i+1: one fewer than the words, none for no words |
| Popup.PhraseTable | popup.js:324-334 | each phrase is a key once, in order of first occurrence, with its number of occurrences |
| Popup.CountSentence | popup.js:327-333 | the inner loop counts one sentence's bigrams on top of the earlier ones |
| Popup.CountPhrases | popup.js:324-334 | the loops build exactly the phrase table and its key order |
| Popup.ExtractCommonPhrases | popup.js:323-341 | the result is the top five phrases of the counted bigrams |
| Popup.SortPermutes | popup.js:337-340 | the sort is a permutation |
| Popup.SortOrders | popup.js:337-340 | the sorted entries are in non-increasing count order |
| Popup.SortStable | popup.js:337-340 | entries with equal count keep their relative order |
| Popup.PhraseKeysInOrder | popup.js:337 | bigram keys are enumerated in the order they were first counted |
| Popup.BigramsSpaced | popup.js:331 | every bigram holds a space |
| Popup.BigramsOfSentences | popup.js:324-334 | a phrase is counted iff it is a bigram of one of the sentences; none spans two sentences |
| Popup.TopPhrasesMeaning | popup.js:323-341 | at most five counted bigrams, most frequent first; one left out means five were kept, none less frequent than it |
| Popup.TopPhrasesTies | popup.js:337-339 | ties keep the order in which the phrases were first counted |
| Popup.RoundDivNearest | popup.js:314 | `Math.round(a/b)` lies within a half of the exact quotient |
| Popup.AnalyzeWritingStyle | popup.js:300-320 | sample size, rounded mean sentence length (none without sentences), word length totals, top phrases and timestamp |
| Popup.ProfileWordLength | popup.js:307-308 | the profile's mean word length equals the other analysers' non-whitespace count per field |
| Popup.ProfileSentenceLength | popup.js:314-317 | the stored mean sentence length is within a half of the exact mean |
| Background.AnalyzeGrammar | background.js:81-101 | at most two issues: spacing iff a double space, at its first position; punctuation iff longer than 10 without an end terminator, at the last index |
| Background.AnalyzeTone | background.js:104-118 | formal iff average word length > 6 and no `!`; casual iff not formal and (a `!` or average < 4); confidence 75 |
| Background.CountListedSum | background.js:125-127 | counting the tokens found in a list equals summing, for each list word, its occurrences among the tokens |
| Background.AnalyzeSentiment | background.js:121-141 | positive with score 0.7 iff more positive tokens; negative with 0.3 iff more negative; else neutral with 0.5 |
| Background.AttachedPunctuationIgnored | background.js:125-127 | a token with punctuation attached ("good.") counts as no list word |
| Background.GenerateSuggestions | background.js:144-159 | the clarity suggestion iff the sentences average more than 25 fields; nothing without sentences |
| Background.Current | background.js:164-169 | the stored record, or exactly the empty record (zeros, with the three tones at zero) when missing |
| Background.StatsRecord.constructor | background.js:164-169 | the record holds the current (possibly defaulted) stats |
| Background.StatsRecord.Update | background.js:171-176 | the fields become one update step of the old record |
| Background.UpdateWritingStats | background.js:162-179 | the written record is one update step of the current record |
| Background.StepEffect | background.js:171-176 | adds the word count and one session, changes only the given tone's entry (by one, or from nothing to one), and keeps the average |
| Background.StepCommutes | background.js:171-176 | two updates give the same record in either order |
| Background.FoldTotals | background.js:171-176 | after any updates the totals are the initial ones plus the word counts and the number of updates |
| Background.FoldFromMissing | background.js:164-176 | starting from no record, the totals are exactly the word counts and the update count |

## Left out

- The DOM, rendering, toolbar placement, dragging, notifications, delays and the busy flag are
  not modelled. Neither are the functions that only display results.
- `translateText`, the built-in AI detection and `escapeHtml` are not modelled. They call
  browser APIs or only build markup.
- Storage, `confirm`, `alert`, message passing and `Date.now()` are not modelled. What they
  supply is a parameter: the stored record, the user's answer, the clock value.
- Rounding for display (`toFixed`, the percentages of the tone chart) is not modelled.
  Confidences and scores are exact hundredths and tenths.
- `Popup.AnalyzeWritingStyle`: the mean word length is kept as its numerator and denominator;
  it is not a rounded float.
- `Popup.AnalyzeWritingStyle`: when there are no sentences the mean sentence length is `None`,
  where JavaScript stores NaN.
- `Popup.LoadSettings`: stored values are limited to undefined, null, booleans, integers,
  strings and one opaque object kind. NaN and fractional numbers are not modelled.
- `Text.Lower`: `toLowerCase` is modelled for ASCII letters only. A non-ASCII upper-case letter
  is kept as is.
- `Words.FirstAlt`: the `i` flag is modelled as ASCII case folding, which is exact for the
  all-ASCII patterns of the source.
- `SidePanel.EscapeQuotesMisreads`: only the JavaScript string-literal layer is modelled. The
  HTML attribute layer around the `onclick` handler is not.
- `SidePanel.InheritedValue`: of the names a plain object inherits, only "constructor"
  and "__proto__" are modelled. Every other inherited name longer than four characters holds an
  upper-case letter (`toString`, `valueOf`, ...), so it never equals a lower-cased token.
- `SidePanel.CountValue`: a property that `+ 1` has turned into a string is one opaque
  non-number. Its text is not modelled; the only reader is `count > 3`, which is false for it.
- `Text.SplitRuns`, `Text.SplitWs`: their own ensures state only that there is at least one
  separator-free field. The full characterisation of the fields is stated separately in
  `Text.SplitRunsIsSplit` and `Text.SplitRunsUnique`, because these functions occur in almost
  every contract of the model.
- `Text.Trim`: its own ensures do not say that the result is a slice of the input; that is
  stated in `Text.TrimStrips`.
- `Text.KeepNonBlank`: its own ensures do not say which fields are kept; that is stated in
  `Text.KeepNonBlankMembers` and `Text.KeepNonBlankAppend`.
- `Analysis.TokenTotal`: its own ensures give only a lower bound; the sum is stated in
  `Analysis.TokenTotalSum`.
- `SidePanel.RephraseRemovesWords`: for the formal chain, removal is proved only for "thing"
  and "stuff". The earlier formal rules look for phrases ("a lot of") that are not single
  words. The general whole-word lemmas do not cover those.
- `Content.CondensedLines`: stated only for a text without line breaks that has at least one
  sentence. A sentence holding a line break is split into several lines.
- `SidePanel.CondensedBullets`: stated under the same restriction as `Content.CondensedLines`.
- `Content.BulletLines`: the line-per-sentence shape is stated only for a text without line
  breaks. A sentence holding a line break spreads over several lines.
- `Background.AnalyzeGrammar`, `Content.AnalyzeGrammar`, `SidePanel.CountWords`,
  `SidePanel.UpdateStats`, `Text.IndexOf`: lengths and positions count Unicode scalar values,
  where JavaScript counts UTF-16 code units. The two differ for characters outside the Basic
  Multilingual Plane: six emoji are 12 code units, so `length > 10` at background.js:92 holds
  for them, while `Background.AnalyzeGrammar` sees length 6. The same applies to the `> 10`
  test in content.js and to `word.length > 4` at sidepanel.js:132.
- `Analysis.AvgWordLength`, `Background.AnalyzeTone`, `Content.ToneOf`, `SidePanel.ToneOf`,
  `SidePanel.WordLengthCount`, `Text.SplitWsLength`, `Popup.ProfileWordLength` and the
  `wordChars` field of `Popup.AnalyzeWritingStyle`: the character counts behind the average
  word length (background.js:106, content.js:484, sidepanel.js:155, popup.js:307-308) are
  Unicode scalar values, not UTF-16 code units. Four emoji with no space and no `!` are 8 code
  units in one field, an average above 6 and so a formal tone at background.js:106-110; the
  model counts 4 and gives a neutral tone.
- `Content.SummarizeText`: its own ensures covers only texts of at most two sentences. The
  meaning of a longer summary is stated in `Content.SummaryResplits`.
- `Background.StatsRecord.Update`: `newStats.wordCount || 0` is modelled for an integer or a
  missing count. Strings and other values in the message are not modelled.

## Findings

| source | as written | input that shows it | evidently intended | confidence | as-written member | corrected member |
|---|---|---|---|---|---|---|
| sidepanel.js:129-145 | `wordCounts[word] = (wordCounts[word] \|\| 0) + 1` on a plain object. For "constructor" this starts from the inherited `Object` function, so the count becomes a string and `count > 3` is false. For "__proto__" the assignment creates no own key. | "constructor constructor constructor constructor" | every lower-cased token longer than four characters that occurs more than three times is reported with its count | not executed | SidePanel.InheritedNeverReported | SidePanel.RepetitionReport |
| sidepanel.js:602-604 | `escapeQuotes` escapes `'`, `"` and line feed, but not backslash or carriage return, before the text is placed in a single-quoted literal | `a\nb` (backslash, n) reads back as a line feed; a lone `\` or a carriage return breaks the literal | the literal reads back as exactly the text | not executed | SidePanel.EscapeQuotesMisreads | SidePanel.EscapeJsRoundTrip |
