# apparel product classifier — a Dafny model

This project models the core of `apparel`, a small product classifier. It has four parts.

- **Featurizer** (`ProductFeatures`). It turns a product's name, description and keywords into a bag-of-words feature map.
  - Each raw token is lower-cased and then lemmatized.
  - A token that occurs in the punctuation string, or is a stopword, is dropped.
  - The surviving name and description tokens, plus `KEYWORD(<token>)` for every keyword token, map to `true`.
- **Classifier front end** (`ApparelClassifier`). It featurizes the product text and asks the trained model for a probability distribution. It keeps the labels whose probability is strictly above 0.01 and ranks them by probability, highest first. The sort is stable.
- **Model builder** (`ClassifierBuilder`). Building has several steps:
  - It chooses dated output paths, refusing paths that already exist.
  - It reads the labelled CSV corpus once into a cached featureset.
  - It trains on the whole featureset and writes the model.
  - Optionally, it cross-validates on a shuffled split of the cache.
  - Finally, it writes a JSON record of the build.
- **Version string** (`get_version`). It joins the version tuple with dots.

The modules are:

| module | file | models |
|---|---|---|
| `Wrappers` | `wrappers.dfy` | `Option` and `Result` |
| `Decimal` | `decimal.dfy` | `"%i" % n` and its inverse |
| `Version` | `version.dfy` | `apparel/__init__.py` |
| `Dates` | `dates.dfy` | the two `strftime` formats of `apparel/build.py` |
| `Features` | `features.dfy` | `apparel/features.py` |
| `Classify` | `classify.dfy` | `apparel/classify.py` |
| `Build` | `build.dfy` | `apparel/build.py` |

The builder is imperative, and the model keeps that form.
- `ClassifierBuilder` is a class whose methods update its fields. An `Environment` object holds the files on disk, plus a clock and a calendar that each call reads once.
- Each method is specified by a ghost step function from one `State` snapshot to the next. The lemmas state what those steps promise.
- Each builder method reproduces the source's ordering of clock readings and file writes. A ghost `trace` records which phases ran, in order.

### Where this model follows the code rather than its documentation

- **Split direction.** `cross_validate` says in its docstring that it trains on 90% and tests on 10%. The code does the opposite:
  - `offset = len(feats) / 10`;
  - training uses `feats[:offset]`, the first tenth;
  - testing uses `feats[offset:]`, the other nine tenths.
  The model follows the code (`Build.Split`, `Build.SplitSpec`).
- **Small corpora.** With fewer than ten examples the training part is empty. `featureset or self.featureset()` then makes `train` use the whole cached featureset. The classifier is therefore trained and scored on the same examples (`Build.TrainFallback`, `Build.SplitSpec`).
- **Write order.** The model file is written before cross-validation runs. The record is written last.
- **Existence check.** Existing output files are checked only when the builder is constructed. `build` itself overwrites whatever is there by then.
- **Failed reads.** A failed corpus read leaves `_featureset` non-`None`:
  - an unreadable file leaves `[]`;
  - a bad row leaves the examples before it.
  Later `featureset()` calls return that partial list.

## Model

| member | source | states |
|---|---|---|
| `Version.GetVersion` | apparel/__init__.py:20-26 | the version string for the tuple (1, 0, 0) is exactly `"1.0.0"` |
| `Version.VersionShape` | apparel/__init__.py:22-26 | for any non-empty tuple: the string has exactly one dot fewer than the tuple has elements; it neither starts nor ends with a dot; splitting it at dots gives back the decimal renderings of the elements, in order, and each parses back to its element |
| `Version.SplitJoin` | apparel/__init__.py:26 | splitting at the separator undoes joining when no part contains the separator |
| `Version.JoinCount` | apparel/__init__.py:26 | joining n separator-free parts inserts exactly n-1 separators |
| `Version.JoinEnds` | apparel/__init__.py:26 | joining non-empty parts that neither start nor end with the separator gives a string that neither starts nor ends with it |
| `Version.Join` | apparel/__init__.py:26 | `str.join` of a non-empty list starts with the first part |
| `Version.VersionString` | apparel/__init__.py:26 | for a non-empty tuple, splitting the version string at its dots gives back the decimal rendering of each element, in order |
| `Decimal.FormatInt` | apparel/__init__.py:26 | `"%i"` renders an integer as a non-empty string without any dot |
| `Decimal.FormatIntRoundTrip` | apparel/__init__.py:26 | `"%i"` rendering of an integer is a numeral that parses back to the same integer |
| `Decimal.Digits` | apparel/__init__.py:26 | the decimal digits of a natural number are all digits, non-empty, with no leading zero, and a single digit exactly when the number is below 10 |
| `Dates.StampRoundTrip` | apparel/build.py:183 | the `'%Y-%d-%m'` stamp is ten characters of the form YYYY-DD-MM and parses back to the year, day and month of the date |
| `Dates.StampSameDay` | apparel/build.py:183 | two dates give the same stamp if and only if they fall on the same calendar day |
| `Dates.Format` | apparel/build.py:198-201 | the `DATE_FORMAT` rendering of a date is always 24 characters |
| `Dates.FormatFields` | apparel/build.py:198-201 | in the `DATE_FORMAT` rendering, weekday name, month name, zero-padded day, hour, minute and second, and the four-digit year sit at fixed columns, separated by single spaces and by colons in the time. Each numeric field reads back as the value it was made from |
| `Features.Lower` | apparel/features.py:64-69 | lower-casing keeps the length and maps each upper-case ASCII letter to its lower-case partner (code point plus 32). Every other character is kept, so no upper-case ASCII letter is left |
| `Features.ContainsSubstringIsOccurs` | apparel/features.py:60 | the `token in punctuation` test holds if and only if the token occurs as a contiguous piece of the punctuation string |
| `Features.PunctuationCatchesPieces` | apparel/features.py:46-60 | against `string.punctuation`, the empty token, `"."` and `"()"` all count as punctuation |
| `Features.PunctuationMissesEllipsis` | apparel/features.py:46-60 | `"..."` does not count as punctuation, because the test is a substring test and not a character test |
| `Features.KeywordKeyInjective` | apparel/features.py:91-92 | a `KEYWORD(k)` key never equals `k` itself, and distinct keyword tokens give distinct keys |
| `Features.FillFeatures` | apparel/features.py:88-92 | the two filling loops produce a map whose keys are exactly the body tokens plus `KEYWORD(k)` for each keyword token, every value `true` |
| `Features.ProductFeatures.constructor` | apparel/features.py:42-47 | an empty stop list or punctuation string falls back to the default, a missing lemmatizer to WordNet's; the fields are constants, so no later call changes them |
| `Features.ProductFeatures.NormalizeIgnoresCase` | apparel/features.py:64-69 | `Normalize` lower-cases before lemmatizing: words that differ only in ASCII case normalize to the same token, and normalizing a lower-cased word gives the same token as normalizing the original |
| `Features.ProductFeatures.Tokenize` | apparel/features.py:49-62 | the loop yields exactly `Tokens(text)`: the normalized raw tokens, in raw order, minus those dropped |
| `Features.ProductFeatures.KeptAppend` | apparel/features.py:58-62 | tokenizing a concatenation of raw token lists tokenizes each list in turn, order and duplicates kept |
| `Features.ProductFeatures.KeptSingle` | apparel/features.py:58-69 | a raw token contributes its lower-cased lemma exactly when that normalized form is neither punctuation nor a stopword |
| `Features.ProductFeatures.KeptSound` | apparel/features.py:45-69 | every yielded token is the normalized form of some raw token; it does not occur in the punctuation string, so it is never empty; and it is not a stopword, the test being applied after normalization |
| `Features.ProductFeatures.KeptComplete` | apparel/features.py:58-62 | every raw token whose normalized form passes both tests is yielded |
| `Features.ProductFeatures.Featurize` | apparel/features.py:71-94 | the method's result is the feature map `Features(name, description, keywords)` |
| `Features.ProductFeatures.FeaturesKeys` | apparel/features.py:78-92 | a key is present if and only if it is a name token, a description token (when a description is given), or `KEYWORD(k)` for a keyword token `k` (when a non-empty keyword string is given); every present key maps to `true` |
| `Features.ProductFeatures.NoKeywordFeatures` | apparel/features.py:85-92 | with keywords `None` or empty, the keys are only the name and description tokens |
| `Classify.AboveFloor` | apparel/classify.py:59-61 | the list comprehension returns no more pairs than the distribution has, each of them a pair of the distribution with probability strictly above 0.01 |
| `Classify.Insert` | apparel/classify.py:62 | inserting one pair adds exactly one entry, the inserted pair, and keeps every existing entry |
| `Classify.SortDescending` | apparel/classify.py:62 | the stable descending sort keeps the length and every entry of its input |
| `Classify.AboveFloorMembers` | apparel/classify.py:59-61 | the filter keeps exactly the (label, probability) pairs whose probability is strictly above 0.01 |
| `Classify.AboveFloorOrder` | apparel/classify.py:59-61 | the filter keeps pairs above the floor in their sample order and drops every pair at or below it |
| `Classify.SortDescendingSorts` | apparel/classify.py:62 | the sort returns a permutation of its input in non-increasing order of probability |
| `Classify.SortDescendingStable` | apparel/classify.py:62 | the sort is stable: for each probability, the pairs with that probability keep their order |
| `Classify.InsertDescending` | apparel/classify.py:62 | inserting into a descending list keeps it descending |
| `Classify.InsertStable` | apparel/classify.py:62 | an inserted pair goes ahead of the pairs with equal probability |
| `Classify.RankedSpec` | apparel/classify.py:58-62 | the ranking contains exactly the pairs of the distribution above 0.01, each with its own probability; it is descending and a permutation of the filtered list; equal probabilities keep their `samples()` order |
| `Classify.FloorExcluded` | apparel/classify.py:59-61 | a label whose probability is exactly 0.01 is never reported |
| `Classify.ApparelClassifier.constructor` | apparel/classify.py:37-50 | the classifier keeps the loaded model and the featurizer it is given; both are constants, so `classify` and `explain` share the one featurizer |
| `Classify.ApparelClassifier.Classify` | apparel/classify.py:52-62 | `classify` returns the ranking of the model's distribution for the featurizer's map of the same arguments; every entry is above 0.01 and the result is descending |
| `Classify.ApparelClassifier.Explain` | apparel/classify.py:64-71 | `explain` hands the model the same feature map `classify` would, from the same featurizer |
| `Classify.ApparelClassifier.Labels` | apparel/classify.py:73-77 | `labels()` is the model's label list, unfiltered and unchanged |
| `Build.Environment.Write` | apparel/build.py:144-145 | writing a file creates or replaces that one path and leaves every other file alone |
| `Build.PathJoin` | apparel/build.py:184-185 | `os.path.join`: an absolute name is returned as is; otherwise the result starts with the directory |
| `Build.PathJoinEnds` | apparel/build.py:184-185 | the joined path ends with the name, and a relative name is placed after the directory with exactly one separator when the directory is non-empty and does not already end in one |
| `Build.OutputPathsByDay` | apparel/build.py:183-185 | the model and record paths differ, and two builds into the same directory get the same paths if and only if they run on the same calendar day |
| `Build.ClassifierBuilder.GetOutputPaths` | apparel/build.py:177-191 | succeeds with `outpath/model-D.pickle` and `outpath/info-D.json` (D the year-day-month stamp) if and only if neither exists; otherwise fails naming the first existing one |
| `Build.ClassifierBuilder.Create` | apparel/build.py:51-72 | defaults: corpus from configuration when empty, `validate` true, `outpath` `"."`. Construction fails if today's output paths exist. Otherwise the new builder has those paths, an empty cache and every measurement `None` |
| `Build.RowExample` | apparel/build.py:95-97 | a row gives an example if and only if it has a `category` column, a `name` column and no column `featurize` does not accept; the example's label is the row's `category`; a row without `category` fails with `MissingCategory`, any other unusable row with `BadColumns` |
| `Build.LoadSpec` | apparel/build.py:91-97 | `Load`, the row loop as a function, yields one example per row, in row order, each made from its own row, up to the first row that cannot be used; the error names that row |
| `Build.LoadStopsAtError` | apparel/build.py:94-97 | once a row fails, later rows are never looked at |
| `Build.LoadRows` | apparel/build.py:94-97 | the loop's list and error are exactly `Load` of the rows |
| `Build.Swap` | apparel/build.py:167 | a swap keeps the length and the multiset of elements |
| `Build.ShuffleDown` | apparel/build.py:167 | each pass of the shuffle keeps the length and the multiset of elements |
| `Build.Shuffle` | apparel/build.py:167 | `random.shuffle` only reorders: the same length and the same elements with the same multiplicities |
| `Build.SplitSpec` | apparel/build.py:166-172 | the training part has `n / 10` examples (integer division), and training followed by test is the whole shuffled list; below ten examples the training set is the whole list and so is the test set; from ten on, training uses the first tenth only |
| `Build.ClassifierBuilder.FetchOnce` | apparel/build.py:86-102 | `featureset()` reads the corpus at most once: afterwards the cache is set, and a second call returns it and changes nothing (neither `feattime` nor the clock). The first call changes only the cache, clock, `feattime` and trace, and a failed first call leaves `feattime` alone |
| `Build.ClassifierBuilder.FetchRows` | apparel/build.py:89-100 | a first read over readable rows caches one example per row, in order, each labelled with its row's `category`. A failing row stops the read with that row's error and keeps the examples before it. An unreadable corpus fails and leaves the cache empty but set |
| `Build.ClassifierBuilder.FeatureSet` | apparel/build.py:74-102 | the method's result and new state are those of `FetchStep` |
| `Build.ClassifierBuilder.Read` | apparel/build.py:86-100 | the first read's result and new state are those of `FetchStep` |
| `Build.ClassifierBuilder.TrainFallback` | apparel/build.py:104-122 | given examples, `train` trains on them and leaves the cache alone. Given none, it trains on the whole featureset: read now, or the cached list. It fails only when that read fails |
| `Build.ClassifierBuilder.Train` | apparel/build.py:104-122 | the method's result and new state are those of `TrainStep` |
| `Build.ClassifierBuilder.Fit` | apparel/build.py:116-122 | the learner call is timed between two clock readings |
| `Build.ClassifierBuilder.ValidateSpec` | apparel/build.py:166-175 | with the featureset at hand: the cache becomes its shuffle; the accuracy is that of the classifier trained on the training set of the shuffle, scored on the test part. The files, the start and finish dates, and the feature, training and build times are unchanged |
| `Build.ClassifierBuilder.CrossValidateSpec` | apparel/build.py:158-175 | `cross_validate` succeeds exactly when the featureset can be read. On success, the cache becomes a permutation of the featureset, trained on its first tenth (all of it when that is empty), with the accuracy on the rest recorded. It writes no file and leaves the start and finish dates, training time and build time alone. On failure it also leaves the accuracy, validation time and feature time alone |
| `Build.ClassifierBuilder.CrossValidate` | apparel/build.py:158-175 | the method's result and new state are those of `CrossValidateStep` |
| `Build.ClassifierBuilder.Validate` | apparel/build.py:166-175 | the new state is that of `ValidateStep` |
| `Build.ClassifierBuilder.Score` | apparel/build.py:173-175 | the accuracy of the classifier on the test part is kept, and the validation time is measured |
| `Build.ClassifierBuilder.BuildFailure` | apparel/build.py:137-141 | a build that cannot read its featureset fails with that error and writes no file. It records the start date, but the accuracy, finish date and the feature, training, validation and build times are unchanged |
| `Build.ClassifierBuilder.BuildSuccess` | apparel/build.py:124-156 | the model file holds the classifier trained on the whole featureset, written before validation; the record file is written last. With validation, the trace is read, train, save model, train on the split, score, save record. Without it, the accuracy stays `None` |
| `Build.ClassifierBuilder.Build` | apparel/build.py:124-156 | the method's result and new state are those of `BuildStep` |
| `Build.ClassifierBuilder.Begin` | apparel/build.py:137-138 | the start date is taken, then the start time |
| `Build.ClassifierBuilder.SaveModel` | apparel/build.py:141-145 | the training time is kept and the model file is written |
| `Build.ClassifierBuilder.CompleteSpec` | apparel/build.py:152-156 | the end of a build sets the finish date and total time, writes only the record file, and leaves the cache, accuracy and other timers as they were |
| `Build.ClassifierBuilder.Complete` | apparel/build.py:152-156 | the new state is that of `CompleteStep` |
| `Build.ClassifierBuilder.Finish` | apparel/build.py:152-153 | the finish date is taken, then the total build time |
| `Build.ClassifierBuilder.WriteDetails` | apparel/build.py:193-222 | the record file is written with the record of the current state, and nothing else changes |
| `Build.ClassifierBuilder.RecordSpec` | apparel/build.py:198-219 | the record carries version `"1.0.0"`, `validated` equal to the builder's flag, the paths computed at construction and the measured accuracy. Both dates are 24-character `DATE_FORMAT` strings |
| `Build.ClassifierBuilder.RebuildSameDayRefused` | apparel/build.py:144-189 | after a successful build, a new builder for the same directory on the same day finds its model path taken |

## Left out

- The NLTK word tokenizer (`wordpunct_tokenize`), the WordNet lemmatizer and the English stopword corpus are not modelled. They enter as constructor arguments of `ProductFeatures`, and only the filtering and map-building around them are stated.
- `Features.Lower` lower-cases ASCII letters only. Python's case mapping of other letters is not modelled.
- Probabilities are exact reals, and 0.01 is the exact real. Floating-point rounding is not modelled.
- `MaxentClassifier.train`, `prob_classify`, the classifier's `explain` output and `nltk.classify.util.accuracy` are not modelled. They are the functions of a `Learner` or `Maxent` value, assumed total, so learner errors are not modelled. `explain` prints its explanation, and only the feature map it passes is modelled.
- Pickle, JSON and CSV encodings are not modelled. A file is a value: rows, a model or a record.
  - CSV rows whose cell count differs from the header are not modelled. A short row gets `None` values from `DictReader`. A long row stores its extra cells under the key `None`, and `featurize(**row)` then raises `TypeError`. A `Row` maps column names to text, so it can represent neither.
  - A corpus that is not a CSV file counts as unreadable.
  - Write failures and open file handles are not modelled.
- `time.time()` and `datetime.now()` are the next readings of a clock and a calendar the environment holds. The model does not say what values they take, only when each is read.
- `Dates.DateTime` is any combination of its fields. A 31st day is allowed in every month, and the weekday is not tied to the date. The calendar can therefore give readings `datetime.now()` never gives, and the `%a` part of `Dates.Format` need not match the date. No property proved here depends on the date being a real one.
- The random draws of `random.shuffle` are a parameter. The shuffle is the Fisher-Yates loop CPython 2 runs, with each draw reduced below `i + 1`.
- `Build.ClassifierBuilder.GetOutputPaths` is a static method that receives today's date and the files. It does not read them from the builder.
- `Build.ClassifierBuilder.GetOutputPaths` compares paths as strings. Path aliasing is not modelled: `./model-D.pickle` and `model-D.pickle` are different keys of the file map, while `os.path.exists` would treat them as the same file.
- The configuration module (`apparel/config.py`), the command-line script and packaging are not part of this model.
  - The configured default corpus is a parameter of `Create`.
  - The builder's featurizer is passed in rather than built with default arguments.
- `Classify.ApparelClassifier.constructor` takes any featurizer and an already-loaded model. The source builds `ProductFeatures()` with its default arguments, and unpickles `model or settings.model` from disk. Unpickling, the configured model path and the choice of defaults are not modelled.
- `Build.RowExample`: the exception `featurize(**row)` raises for unexpected columns or a missing `name` becomes the `BadColumns` error, and the `KeyError` of a row without `category` becomes `MissingCategory`; exception types and messages are not modelled.
