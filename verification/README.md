# Chrome extension risk scorer, modelled in Dafny

This project models `ExtensionRiskScorer` from `src/analysis/manifest_analyzer.py`. It scores a
Chrome extension from its manifest and store metadata. Its parts:

- **Permission risk**: the sum of the table weights of every permission name.
- **Host risk**: a score per host pattern, from 10 for "every host" down to 2 for one domain.
- **User factor**: 0 to +2.0 points, by user count.
- **Rating factor**: -1.5 to +1.0 points, by rating and review count.

The score is the sum of the four parts. The risk level (No Risk, Low, Medium, High, Critical)
comes from the thresholds 1, 6, 12 and 18 points. The model also covers the batch pass of
`analyze_extensions_directory` and `save_results_to_file`:

- every `.json` file is scored;
- the results are sorted stably by score, highest first;
- the first `top_k` are kept;
- each report gets positional ranks, a five-band distribution, a count of risky extensions and
  the highest score.

Each factor, score and threshold is an integer number of **half-points**, so 0.5 points is 1 and
18 points is 36. Every score the source can produce is a multiple of 0.5, so `round(total, 2)`
changes nothing. A decoded manifest is a JSON object whose members are a sequence of key/value
pairs:

- a lookup returns the last binding of a key, as a Python `dict` built by `json.loads` does;
- `for x in v` becomes `Iterate(v)`: the items of a list, the characters of a string, the keys
  of an object, and a `TypeError` for anything else;
- `len(v)` becomes `Len(v)`.

Any exception inside `calculate_total_risk` becomes the answer `(0.0, {})`, written `Failed`. The
JSON decoder (`json.loads`) and the float parser (`float()` on a string) are parameters of the
model.

Modules, in dependency order:

- `Wrappers`, `Seqs`, `Text`: an option type, filters and counts, string operations and Python's
  `int()` on strings.
- `JsonValue`: the decoded JSON value.
- `PermissionWeights`: the weight table.
- `Permissions`: host extraction, host risk and permission risk.
- `Factors`: user factor, rating factor and risk level.
- `Metadata`: `parse_simple_metadata`.
- `Scorer`: `calculate_total_risk` and the two manifest flags.
- `Ranking`: sorting, top-k, report rows, distribution, summary and the directory pass.

Behaviour of the code, which the model keeps:

- A manifest with no permissions and no metadata scores 1 point (Low), not 0. The missing review
  count defaults to 0, and fewer than 10 reviews cost +1.0 (`BareManifestScoresOnePoint`).
- A file with exactly one `---` in it is rejected as "metadata without a manifest". This holds
  even when the `---` sits inside a JSON string (`MetadataOnlyFails`).
- Ranks are positions: the result at 0-based position `i` has rank `i + 1`. Tied scores still get
  distinct ranks, in encounter order.
- In a report row, a missing breakdown shows rating 0, not 5.0, because `save_results_to_file`
  reads `breakdown.get('rating', 0)`.
- A user count written `"\x1c5000"` gives a user factor of 0. `str.strip()` treats U+001C..U+001F as
  whitespace but `int()` does not, so `int()` raises and the factor falls back to 0
  (`SeparatorPaddedCountScoresZero`).
- The file is read in text mode, so `\r\n` and a lone `\r` become `\n` before anything else.
  Metadata lines therefore split the same way whatever the file's line-break convention
  (`ScoreIgnoresLineBreakStyle`).
- The list of errors is always empty, because `calculate_total_risk` catches every exception
  itself.

## Model

| member | source | states |
|---|---|---|
| PermissionWeights.Weight | src/analysis/manifest_analyzer.py:11-106 | each weight is at most 9, and is positive exactly for the 70 permission names the table lists |
| PermissionWeights.WeightIsTier | src/analysis/manifest_analyzer.py:11-106 | for each weight 1..9, a name weighs that much exactly when the table lists it with that weight: the first-match lookup hides no listing |
| Permissions.AllUrlsWeight | src/analysis/manifest_analyzer.py:16 | the permission name `<all_urls>` weighs 9 |
| Permissions.ExtractHostPermissions | src/analysis/manifest_analyzer.py:108-122 | raises exactly when `permissions` or `host_permissions` is present but cannot be iterated; otherwise the hosts are the host-pattern entries of `permissions` followed by all of `host_permissions`, the first group being host patterns |
| Permissions.HostPermissionsMembers | src/analysis/manifest_analyzer.py:108-122 | an entry is an extracted host exactly when it is a host-pattern string of `permissions` or an entry of `host_permissions`; their number is the host-pattern count of `permissions` plus the length of `host_permissions`, so repeats are kept |
| Permissions.AllUrlsUnderPermissions | src/analysis/manifest_analyzer.py:115 | `<all_urls>` listed under `permissions` is not taken for a host pattern, and it is kept as a permission name |
| Permissions.PatternScore | src/analysis/manifest_analyzer.py:132-142 | one host pattern scores 10, 8, 6, 4 or 2 (even, between 2 and 10) |
| Permissions.PatternScoreByWildcards | src/analysis/manifest_analyzer.py:132-142 | each score, both directions: 10 for the four universal patterns; 8 for two or more `*` otherwise; 6 for one `*` opening `*://`; 4 for one `*` elsewhere; 2 for none |
| Permissions.UniversalWildcards | src/analysis/manifest_analyzer.py:133 | `<all_urls>` has no `*`, and each of the other three universal patterns has at least two |
| Permissions.HostEntryScore | src/analysis/manifest_analyzer.py:131-142 | a string entry scores by the cascade; a list with two or more `"*"` items scores 8; any other entry raises |
| Permissions.HostRisk | src/analysis/manifest_analyzer.py:124-144 | no hosts give 0; the sum exists exactly when every entry can be scored, and lies between 2 and 10 per host |
| Permissions.HostRiskConcat | src/analysis/manifest_analyzer.py:129-144 | host risk is additive over concatenated host lists, and the concatenation fails exactly when one part does |
| Permissions.HostRiskSingle | src/analysis/manifest_analyzer.py:129-144 | a single host scores as its entry, so with `HostRiskConcat` the host risk of a list is the sum of its entry scores |
| Permissions.StringEntries | src/analysis/manifest_analyzer.py:152-155 | keeps exactly the string entries: every result is an entry, and every string entry is in the result |
| Permissions.StringEntriesConcat | src/analysis/manifest_analyzer.py:152-155 | the strings of `a + b` are those of `a` followed by those of `b`: order and repeats are kept |
| Permissions.StringEntriesSingle | src/analysis/manifest_analyzer.py:152-155 | a single string entry gives its string; a single non-string entry gives nothing |
| Permissions.StringEntriesCount | src/analysis/manifest_analyzer.py:152-155 | there is one name per string entry |
| Permissions.StringEntriesMembers | src/analysis/manifest_analyzer.py:152-155 | a name is in the result exactly when the entries hold it as a string |
| Permissions.NoColonNoUrl | src/analysis/manifest_analyzer.py:152 | a name without `:` is never excluded as a URL |
| Permissions.PermissionNames | src/analysis/manifest_analyzer.py:146-155 | raises exactly when `permissions` or `optional_permissions` is present but cannot be iterated; otherwise the names are the non-URL strings of `permissions` followed by the strings of `optional_permissions` |
| Permissions.PermissionNamesMembers | src/analysis/manifest_analyzer.py:146-155 | a name is looked up exactly when it is a non-URL string of `permissions` or a string of `optional_permissions`; every occurrence is looked up, so a name listed twice is weighed twice |
| Permissions.SumWeights | src/analysis/manifest_analyzer.py:157-166 | the running total equals the sum of the weights recorded in `risky_permissions` |
| Permissions.SumWeightsIsTableSum | src/analysis/manifest_analyzer.py:157-166 | the loop's total is the plain sum of the weights of all names; unknown names add 0 |
| Permissions.SumWeightsBound | src/analysis/manifest_analyzer.py:157-166 | with every weight at most 9, the total is at most 9 per name |
| Permissions.SumWeightsConcat | src/analysis/manifest_analyzer.py:157-166 | the total is additive over concatenated name lists |
| Permissions.SumWeightsConcatRisky | src/analysis/manifest_analyzer.py:159-166 | the recorded entries of concatenated name lists concatenate |
| Permissions.ScorePermissions | src/analysis/manifest_analyzer.py:146-168 | the total is the sum of the recorded weights, and at most 9 per name |
| Permissions.ScorePermissionsIsTableSum | src/analysis/manifest_analyzer.py:158-165 | permission risk is the sum of the table weights over all names |
| Permissions.ScorePermissionsConcat | src/analysis/manifest_analyzer.py:146-168 | total and recorded list are additive over concatenated name lists, so duplicated names count twice |
| Permissions.RiskyEntriesCarryWeights | src/analysis/manifest_analyzer.py:162-166 | every recorded entry is a name of the input with its own positive table weight |
| Permissions.RiskyNamesInOrder | src/analysis/manifest_analyzer.py:161-166 | `risky_permissions` has one entry per positive-weight name occurrence, in input order |
| Factors.Trunc | src/analysis/manifest_analyzer.py:179 | `int()` of a float truncates toward zero |
| Factors.ToCount | src/analysis/manifest_analyzer.py:172-180 | the coercion: `None` is 0; an int is itself; a float is truncated; a string loses its commas and spaces and goes through `int()`, so digit strings are their value; other values raise |
| Factors.CountCoercionAgrees | src/analysis/manifest_analyzer.py:172-180 | `None` counts as the integer 0, a whole float as its integer, and a string the same as the string with its commas and spaces already deleted |
| Text.SeparatorPaddingRejected | src/analysis/manifest_analyzer.py:175 | `int()` refuses a digit string led by U+001C, which it does not skip as whitespace |
| Factors.SeparatorPaddedCountScoresZero | src/analysis/manifest_analyzer.py:172-191 | the count `"\x1c5000"` raises in `int()` and scores 0, where the integer 5000 scores 0.5 |
| Factors.UserFactorOfCount | src/analysis/manifest_analyzer.py:181-190 | the step function lies in 0..2.0 points, is 0 under 1000 users and 2.0 from one million |
| Factors.UserFactorByBreakpoints | src/analysis/manifest_analyzer.py:181-190 | the factor is half a point per breakpoint (1K, 10K, 100K, 1M) the count reaches |
| Factors.UserFactorMonotone | src/analysis/manifest_analyzer.py:181-190 | more users never give a smaller factor |
| Factors.UserFactorBoundaries | src/analysis/manifest_analyzer.py:181-188 | each breakpoint is an inclusive lower bound |
| Factors.UserFactor | src/analysis/manifest_analyzer.py:170-192 | the step function of the coerced count, or 0 when the coercion raises |
| Factors.UserFactorOfDecimalText | src/analysis/manifest_analyzer.py:174-179 | a count written in decimal text scores the same as the integer itself |
| Factors.ToRating | src/analysis/manifest_analyzer.py:196-208 | `None` is 5.0; an integer becomes the same float; a float is itself; a string loses its commas and spaces and goes through `float()`; anything else raises |
| Factors.RatingCoercionAgrees | src/analysis/manifest_analyzer.py:196-208 | `None` rates as the float 5.0, an integer as the same float, and a string the same as the string with its commas and spaces already deleted |
| Factors.RatingCascade | src/analysis/manifest_analyzer.py:211-222 | the rating cascade lies between -1.5 and +1.0 points |
| Factors.RatingCascadeCases | src/analysis/manifest_analyzer.py:211-222 | a bonus exactly when rating >= 3.5 with >= 100 reviews; +1.0 whenever there are under 10 reviews or the rating is under 2.5; +0.5 and 0 characterised both ways |
| Factors.RatingCascadeAntitoneInRating | src/analysis/manifest_analyzer.py:211-222 | a better rating never gives a larger factor |
| Factors.RatingCascadeAntitoneInReviews | src/analysis/manifest_analyzer.py:211-222 | more reviews never give a larger factor |
| Factors.RatingFactor | src/analysis/manifest_analyzer.py:194-224 | the cascade of the coerced rating and review count, or 0 when either coercion raises; always between -1.5 and +1.0 |
| Factors.FewReviewsPenalised | src/analysis/manifest_analyzer.py:217-218 | a 4.6-star extension with 5 reviews gets +1.0 |
| Factors.Level | src/analysis/manifest_analyzer.py:226-237 | No Risk exactly under 1 point; Critical exactly from 18 points |
| Factors.LevelByThresholds | src/analysis/manifest_analyzer.py:226-237 | a level's severity is the number of thresholds (1, 6, 12, 18) its total reaches |
| Factors.LevelMonotone | src/analysis/manifest_analyzer.py:226-237 | a higher total never gets a lower level |
| Metadata.LineEntry | src/analysis/manifest_analyzer.py:378-381 | a line is skipped exactly when it has no `:` or its stripped text starts with `-`; otherwise the key is the stripped text before the first `:` and the value the text after it, stripped of whitespace and then of quotes |
| Metadata.CountValue | src/analysis/manifest_analyzer.py:384-391 | a value that is all digits once commas and spaces are deleted gives that number; any other value gives 0 |
| Metadata.RatingValue | src/analysis/manifest_analyzer.py:394-400 | the float of the value with commas and spaces deleted, or 5.0 when `float()` refuses it |
| Metadata.LineEntryRoundTrip | src/analysis/manifest_analyzer.py:378-381 | the line `key: value` reads back as the entry `(key, value)` whenever the key is non-empty, holds no `:`, is not a `-` item, and neither part carries padding the reader strips |
| Metadata.MetadataValuesAsFactorInput | src/analysis/manifest_analyzer.py:384-400 | the reader cleans values as the factors do: an all-digit count gives the factor the same number and user factor as the raw text would; a rating matches the factor's float parse, and is 5.0 where that parse fails |
| Metadata.ApplyLine | src/analysis/manifest_analyzer.py:377-402 | a `user_count` or `rating_count` line sets that field to the line's count, a `rating` line sets the rating to the line's rating, and only that field changes; every other line leaves the metadata unchanged |
| Metadata.ApplyLines | src/analysis/manifest_analyzer.py:377-402 | an empty block leaves the record as it was |
| Metadata.ApplyLinesSnoc | src/analysis/manifest_analyzer.py:377-402 | the lines are applied in order: applying `a + [x]` is applying `a` and then the line `x` |
| Metadata.ApplyLinesLastWins | src/analysis/manifest_analyzer.py:377-402 | each field holds the value of the last line with its key, or its starting value when no line has the key |
| Metadata.ParseSimpleMetadata | src/analysis/manifest_analyzer.py:374-404 | each of the three fields holds the count or rating of the last line of the block naming its key, and is missing when no line names it; a block without `\n` is read as one line |
| Metadata.NoKeysNoMetadata | src/analysis/manifest_analyzer.py:374-404 | text without any of the three keys leaves all three fields missing, so the scorer's defaults apply |
| Metadata.CountsRoundTrip | src/analysis/manifest_analyzer.py:374-404 | parsing the lines `user_count: u` and `rating_count: c` gives back `u` and `c`, with no rating |
| Scorer.ConsistentTotalBounds | src/analysis/manifest_analyzer.py:322-326 | the total lies between permission risk + host risk - 1.5 and + 3.0, and is at least 2 points per host, minus 1.5 |
| Scorer.HasContentScripts | src/analysis/manifest_analyzer.py:370-372 | false without the key; true exactly when the value has entries; raises exactly for a value without a length |
| Scorer.Flags | src/analysis/manifest_analyzer.py:328-335 | each of the three flags is listed exactly when its condition holds, once; `externally_connectable` comes first and `web_accessible_resources` last |
| Scorer.ScoreManifest | src/analysis/manifest_analyzer.py:292-352 | fails exactly when one step raises; otherwise the breakdown is consistent, and records the hosts, risky permissions and flags plus the metadata defaults (0 users, rating 5.0, 0 reviews) |
| Scorer.ScoreManifestTotal | src/analysis/manifest_analyzer.py:302-326 | when every step succeeds, the total is permission risk + host risk + the user factor of the user count + the rating factor of rating and review count, with 0 users, rating 5.0 and 0 reviews for missing metadata |
| Scorer.DropBom | src/analysis/manifest_analyzer.py:250-251 | a leading U+FEFF is removed, one character only; any other text is unchanged |
| Scorer.Segments | src/analysis/manifest_analyzer.py:253-267 | text without `---` is all manifest; the split fails exactly when it yields two pieces; with three or more pieces the metadata is the second piece and the manifest the third, both stripped, and the rest is ignored |
| Scorer.FrontMatterSegments | src/analysis/manifest_analyzer.py:254-258 | `---META---JSON` yields the stripped metadata and the stripped manifest |
| Scorer.MetadataOnlyFails | src/analysis/manifest_analyzer.py:259-261 | a text with a single `---` has no manifest and is rejected |
| Scorer.ManifestText | src/analysis/manifest_analyzer.py:243-279 | an empty file and a two-piece split are rejected; otherwise the decoder gets the manifest piece stripped and cleared of a byte-order mark, provided it starts with `{` and ends with `}`, and nothing otherwise |
| Scorer.PlainManifestText | src/analysis/manifest_analyzer.py:263-279 | a file that is just a manifest object, without `---`, reaches the decoder unchanged, with no metadata |
| Scorer.FrontMatterManifestText | src/analysis/manifest_analyzer.py:253-279 | `---META---JSON` hands the decoder the manifest unchanged and the metadata reader the stripped metadata |
| Scorer.Score | src/analysis/manifest_analyzer.py:239-364 | a failure is `(0, {})`; otherwise the score is the breakdown's total and the breakdown is consistent; the file's line breaks become `\n` first; undecodable or non-object JSON fails; an object is scored with the metadata parsed from the text before it |
| Text.TranslateNewlines | src/analysis/manifest_analyzer.py:243 | text mode leaves no `\r` in the text it reads |
| Text.LineBreakTranslated | src/analysis/manifest_analyzer.py:243 | a `\r\n` or a lone `\r` reads as one `\n`, and the text before it is unchanged |
| Text.TranslateNoCr | src/analysis/manifest_analyzer.py:243 | a text without `\r` reads unchanged |
| Scorer.ScoreIgnoresLineBreakStyle | src/analysis/manifest_analyzer.py:239-364 | translating a file's line breaks before scoring it changes nothing |
| Scorer.BareManifestScoresOnePoint | src/analysis/manifest_analyzer.py:302-326 | an empty manifest without metadata scores 1 point, level Low |
| Scorer.SampleScore | src/analysis/manifest_analyzer.py:292-343 | `tabs` + `cookies` + `<all_urls>` with 2M users and 4.8 stars over 5000 reviews scores 27.5 points, Critical |
| Ranking.Insert | src/analysis/manifest_analyzer.py:453 | inserting into a sorted list keeps it sorted and adds exactly the one element |
| Ranking.SortByScore | src/analysis/manifest_analyzer.py:453 | the sort is a permutation of the results, ordered highest score first |
| Ranking.SortStable | src/analysis/manifest_analyzer.py:453 | for every score, the results with that score keep their input order |
| Ranking.StableSortIsUnique | src/analysis/manifest_analyzer.py:453 | any list sorted highest first that keeps each score's input order is the sort's output |
| Ranking.SortedFirstIsHighest | src/analysis/manifest_analyzer.py:517 | after sorting, the first result has the highest score of all |
| Ranking.TopK | src/analysis/manifest_analyzer.py:456 | `results[:k]` follows Python's slice semantics, negative `k` included, and is a prefix |
| Ranking.TopKOutscoresRest | src/analysis/manifest_analyzer.py:453-456 | in the sorted list, every kept result scores at least as much as every dropped one |
| Ranking.RowOf | src/analysis/manifest_analyzer.py:525-547 | rank is position + 1; id and score are the result's; every other field copies the breakdown, with `risky_permissions` cut to its first 10 entries; a missing breakdown reads as No Risk, zero parts and counts, rating 0 and empty lists |
| Ranking.RanksArePositions | src/analysis/manifest_analyzer.py:527 | ranks are 1, 2, 3, ... and strictly increasing, even for tied scores |
| Ranking.TopKRowsArePrefix | src/analysis/manifest_analyzer.py:456-465 | the top-k report's rows, ranks included, are the first rows of the full report |
| Ranking.RowLevelMatchesScore | src/analysis/manifest_analyzer.py:530 | for a result of the scorer, a row's level is the level of its score |
| Ranking.BucketIsLevel | src/analysis/manifest_analyzer.py:473-479 | a score lies in a distribution band exactly when `get_risk_level` gives it that band's level |
| Ranking.DistributionPartitions | src/analysis/manifest_analyzer.py:473-479 | the five band counts add up to the number of results |
| Ranking.RiskyAreTheRest | src/analysis/manifest_analyzer.py:478-481 | the extensions "with risk" are exactly those outside the No Risk band |
| Ranking.Summarize | src/analysis/manifest_analyzer.py:512-517 | counts of analyzed, risky and zero-risk extensions (the last two add up to the first); the highest score is the first result's, and bounds every score of a sorted list; 0 for no results |
| Ranking.ExtensionId | src/analysis/manifest_analyzer.py:436 | the id with `.json` appended gives back the file name |
| Ranking.ScoreEntry | src/analysis/manifest_analyzer.py:435-440 | the result's id names the file; its score and breakdown are those `calculate_total_risk` gives the file's text; an unreadable file scores 0 with no breakdown |
| Ranking.JsonResults | src/analysis/manifest_analyzer.py:428-440 | one well-formed result per `.json` entry, in listing order, each the score of that entry |
| Ranking.Analyze | src/analysis/manifest_analyzer.py:414-467 | every `.json` entry is ranked, none dropped and none added; the list is sorted highest first and keeps each score's listing order; the top list is its first `top_k` |

## Left out

- File system: `os.listdir` and `open` are not modelled. The directory is a list of `Entry` values,
  each with a name and, when the file can be read as UTF-8, its text. Of the reading, only two
  effects are modelled: `utf-8-sig` drops one leading byte-order mark, and text mode turns
  `\r\n` and `\r` into `\n`.
- `json.loads` and `float()` on strings are parameters (`decode`, `parseFloat`), not definitions.
  The model does not fix JSON syntax or float syntax.
- Floating point: ratings are exact reals. NaN, infinity and the `OverflowError` of `int()` on an
  infinite float, or of `float()` on a huge integer, are not modelled.
- `int()` and `str.isdigit()` accept ASCII digits only in this model; Python also accepts other
  Unicode decimal digits.
- ToCount, CountValue: read a digit string of any length. From Python 3.11 on, `int()` refuses a
  decimal string of more than 4300 digits with `ValueError` by default, and the source then
  scores the count as 0; the model does not fix an interpreter version, so this limit is not
  modelled.
- JSON booleans are not numbers here, while in Python `True` is 1. A boolean passed to a factor
  would count as 1 in Python; the model never passes one, since metadata values are always
  numbers.
- Metadata keys other than `user_count`, `rating` and `rating_count` are stored by
  `parse_simple_metadata` but never read. The `Metadata` record keeps only the three fields.
- `risky_permissions` entries are modelled as records (name, weight), not as the text
  `"name (Score: w)"`.
- `save_results_to_file`: averages, percentages, the fixed description texts and the writing of
  the JSON file are left out. So are the console prints of both functions.
- The `errors` list and `total_errors` are left out: nothing is ever added to the list, because
  `calculate_total_risk` catches every exception itself.
- `is_float` is never called and is not part of this model.
- `save_results_to_csv` (the CSV rows) and the `__main__` summary printout are output only and are
  left out.
- `risk_analyzer.py`, `extension_checker.py` and `extract_ids.py` are not part of this model.
