/**
 * The model builder (`ClassifierBuilder`): reads the labelled corpus once into
 * a cached featureset, trains a classifier on it, writes the model, optionally
 * cross-validates, and writes a JSON record describing the build.
 *
 * The world outside the process is an `Environment`: the files on disk, and a
 * clock and a calendar read one reading at a time. The maximum-entropy learner
 * and NLTK's `accuracy` are the two functions of a `Learner`.
 */
module Build {
  import opened Wrappers
  import opened Dates
  import opened Features
  import Version

  /** A corpus row as `csv.DictReader` yields it: column name to cell text. */
  type Row = map<string, string>

  /** One training example: a row's features and its `category` label. */
  type Example = (FeatureMap, string)

  datatype BuildError =
    | CorpusUnreadable(path: string)  // the corpus file cannot be opened
    | MissingCategory(row: nat)       // `row.pop('category')` finds no such column
    | BadColumns(row: nat)            // `featurize(**row)` rejects the remaining columns
    | OutputExists(path: string)      // an output file is already there

  /** The `timer` entry of the build record (seconds, `None` when the phase did not run). */
  datatype Timer = Timer(build: Option<real>, features: Option<real>, validation: Option<real>, training: Option<real>)

  /** The build record written as JSON by `write_details`. */
  datatype Details = Details(
    version: string,
    started: string,
    finished: string,
    accuracy: Option<real>,
    validated: bool,
    corpus: string,
    modelPath: string,
    infoPath: string,
    classifierClass: string,
    featuresClass: string,
    timer: Timer)

  /** What a file on disk holds: a CSV corpus, a pickled model or a JSON build record. */
  datatype File<C> = Csv(rows: seq<Row>) | Pickle(model: C) | Json(details: Details)

  /** `MaxentClassifier.train` and `nltk.classify.util.accuracy`. */
  datatype Learner<!C> = Learner(train: seq<Example> -> C, accuracy: (C, seq<Example>) -> real)

  /** A step of a build, in the order it happens. */
  datatype Phase = ReadCorpus(path: string) | Trained(examples: seq<Example>) | Scored(test: seq<Example>) | Saved(path: string)

  /**
   * The files on disk, and the wall clock: each `time.time()` or
   * `datetime.now()` call takes the next reading.
   */
  class Environment<C> {
    var files: map<string, File<C>>
    var ticks: nat
    const clock: nat -> real
    const calendar: nat -> DateTime

    constructor (files: map<string, File<C>>, clock: nat -> real, calendar: nat -> DateTime)
      ensures this.files == files && ticks == 0
      ensures this.clock == clock && this.calendar == calendar
    {
      this.files := files;
      this.clock := clock;
      this.calendar := calendar;
      ticks := 0;
    }

    /** `time.time()` */
    method Time() returns (t: real)
      modifies this`ticks
      ensures ticks == old(ticks) + 1 && t == clock(old(ticks))
    {
      t := clock(ticks);
      ticks := ticks + 1;
    }

    /** `datetime.now()` */
    method Now() returns (d: DateTime)
      modifies this`ticks
      ensures ticks == old(ticks) + 1 && d == calendar(old(ticks))
    {
      d := calendar(ticks);
      ticks := ticks + 1;
    }

    /** `open(path, 'w')` followed by a dump: the file is created or replaced. */
    method Write(path: string, file: File<C>)
      modifies this`files
      ensures files == old(files)[path := file]
    {
      files := files[path := file];
    }
  }

  /** `os.path.join(a, b)` for POSIX paths. */
  function PathJoin(a: string, b: string): (r: string)
    ensures (|b| == 0 || b[0] != '/') ==> a <= r
    ensures |b| > 0 && b[0] == '/' ==> r == b
  {
    if |b| > 0 && b[0] == '/' then b
    else if a == "" || a[|a| - 1] == '/' then a + b
    else a + "/" + b
  }

  /** The directory part `PathJoin(a, ...)` puts in front of a relative name. */
  function JoinPrefix(a: string): string {
    if a == "" || a[|a| - 1] == '/' then a else a + "/"
  }

  /**
   * The joined path always ends with the name; a relative name is placed in
   * the directory, after exactly one separator when the directory is not empty.
   */
  lemma PathJoinEnds(a: string, b: string)
    ensures var r := PathJoin(a, b); |b| <= |r| && r[|r| - |b|..] == b
    ensures (|b| == 0 || b[0] != '/') ==> PathJoin(a, b) == JoinPrefix(a) + b
  {
  }

  /** The model and record paths for a build in `outpath` on the day of `today`. */
  function OutputPaths(outpath: string, today: DateTime): (string, string) {
    (PathJoin(outpath, "model-" + Stamp(today) + ".pickle"),
     PathJoin(outpath, "info-" + Stamp(today) + ".json"))
  }

  /**
   * The two output paths are distinct, and two builds into the same
   * directory get the same paths exactly when they run on the same day.
   */
  lemma OutputPathsByDay(outpath: string, a: DateTime, b: DateTime)
    ensures OutputPaths(outpath, a).0 != OutputPaths(outpath, a).1
    ensures OutputPaths(outpath, a) == OutputPaths(outpath, b)
        <==> (a.year == b.year && a.month == b.month && a.day == b.day)
  {
    var p := JoinPrefix(outpath);
    var (ma, ia) := OutputPaths(outpath, a);
    var (mb, ib) := OutputPaths(outpath, b);
    assert ma == p + ("model-" + Stamp(a) + ".pickle");
    assert ia == p + ("info-" + Stamp(a) + ".json");
    assert mb == p + ("model-" + Stamp(b) + ".pickle");
    assert ma[|p|] == 'm' && ia[|p|] == 'i';
    StampSameDay(a, b);
    if ma == mb {
      assert Stamp(a) == ma[|p| + 6..|ma| - 7];
      assert Stamp(b) == mb[|p| + 6..|mb| - 7];
    }
  }

  /** The cell of `column`, or `None` when the row has no such column (the keyword argument's default). */
  function Cell(row: Row, column: string): Option<string> {
    if column in row then Some(row[column]) else None
  }

  /** The keyword arguments `featurize` accepts. */
  const Arguments: set<string> := {"name", "description", "keywords"}

  /** The example the loop of `featureset` makes of row number `index`. */
  function RowExample(fx: ProductFeatures, row: Row, index: nat): (r: Result<Example, BuildError>)
    ensures r.Success? <==> "category" in row && "name" in row && (row - {"category"}).Keys <= Arguments
    ensures r.Success? ==> r.value.1 == row["category"]
    ensures "category" !in row ==> r == Failure(MissingCategory(index))
    ensures r.Failure? && "category" in row ==> r == Failure(BadColumns(index))
  {
    if "category" !in row then Failure(MissingCategory(index))
    else
      var rest := row - {"category"};
      if !(rest.Keys <= Arguments) || "name" !in rest then Failure(BadColumns(index))
      else Success((fx.Features(rest["name"], Cell(rest, "description"), Cell(rest, "keywords")), row["category"]))
  }

  /**
   * The list the loop of `featureset` has built after the rows, and the error
   * that stopped it, if any.
   */
  function Load(fx: ProductFeatures, rows: seq<Row>): (seq<Example>, Option<BuildError>)
    decreases |rows|
  {
    if rows == [] then ([], None)
    else
      var (xs, err) := Load(fx, rows[..|rows| - 1]);
      if err.Some? then (xs, err)
      else match RowExample(fx, rows[|rows| - 1], |rows| - 1)
        case Failure(e) => (xs, Some(e))
        case Success(x) => (xs + [x], None)
  }

  /**
   * Loading yields one example per row, in row order, each made from its own
   * row, up to the first row that cannot be converted; the error is that
   * row's error.
   */
  lemma {:induction false} LoadSpec(fx: ProductFeatures, rows: seq<Row>)
    ensures var (xs, err) := Load(fx, rows);
      && |xs| <= |rows|
      && (forall i :: 0 <= i < |xs| ==> RowExample(fx, rows[i], i) == Success(xs[i]))
      && (err.None? <==> |xs| == |rows|)
      && (err.Some? ==> RowExample(fx, rows[|xs|], |xs|) == Failure(err.value))
    decreases |rows|
  {
    if rows != [] {
      var init := rows[..|rows| - 1];
      LoadSpec(fx, init);
      var (xs, err) := Load(fx, init);
      forall i | 0 <= i < |xs| ensures rows[i] == init[i] {
      }
    }
  }

  /** A load that failed on a prefix of the rows fails the same way on all of them. */
  lemma {:induction false} LoadStopsAtError(fx: ProductFeatures, rows: seq<Row>, k: nat)
    requires k <= |rows| && Load(fx, rows[..k]).1.Some?
    ensures Load(fx, rows) == Load(fx, rows[..k])
    decreases |rows| - k
  {
    if k < |rows| {
      assert rows[..k + 1][..k] == rows[..k];
      LoadStopsAtError(fx, rows, k + 1);
    } else {
      assert rows[..k] == rows;
    }
  }

  /**
   * The loop of `featureset` over the rows: pops the `category` of each row
   * and featurizes the rest, stopping at the first row that cannot be used.
   */
  method LoadRows(fx: ProductFeatures, rows: seq<Row>) returns (xs: seq<Example>, err: Option<BuildError>)
    ensures (xs, err) == Load(fx, rows)
  {
    xs := [];
    var i := 0;
    while i < |rows|
      invariant 0 <= i <= |rows|
      invariant Load(fx, rows[..i]) == (xs, None)
    {
      assert rows[..i + 1][..i] == rows[..i];
      var row := rows[i];
      if "category" !in row {
        assert Load(fx, rows[..i + 1]) == (xs, Some(MissingCategory(i)));
        LoadStopsAtError(fx, rows, i + 1);
        return xs, Some(MissingCategory(i));
      }
      var category := row["category"];
      var rest := row - {"category"};
      if !(rest.Keys <= Arguments) || "name" !in rest {
        assert Load(fx, rows[..i + 1]) == (xs, Some(BadColumns(i)));
        LoadStopsAtError(fx, rows, i + 1);
        return xs, Some(BadColumns(i));
      }
      var feats := fx.Featurize(rest["name"], Cell(rest, "description"), Cell(rest, "keywords"));
      xs := xs + [(feats, category)];
      i := i + 1;
    }
    assert rows[..|rows|] == rows;
    err := None;
  }

  /** The rows read from `path`, or `None` when it is not a readable CSV corpus. */
  function CorpusRows<C>(files: map<string, File<C>>, path: string): Option<seq<Row>> {
    if path in files && files[path].Csv? then Some(files[path].rows) else None
  }

  /** Exchanges two positions of a list. */
  function Swap<T>(s: seq<T>, i: nat, j: nat): (r: seq<T>)
    requires i < |s| && j < |s|
    ensures |r| == |s| && multiset(r) == multiset(s)
  {
    s[i := s[j]][j := s[i]]
  }

  /** The position `random.shuffle` swaps with position `i`: a draw reduced below `i + 1`. */
  function Pick(draws: nat -> nat, i: nat): (j: nat)
    ensures j <= i
  {
    draws(i) % (i + 1)
  }

  /** The swaps of `random.shuffle` for positions `i` down to 1: each only reorders the list. */
  function ShuffleDown<T>(s: seq<T>, draws: nat -> nat, i: nat): (r: seq<T>)
    requires i < |s|
    ensures |r| == |s| && multiset(r) == multiset(s)
    decreases i
  {
    if i == 0 then s else ShuffleDown(Swap(s, i, Pick(draws, i)), draws, i - 1)
  }

  /**
   * `random.shuffle(s)`, with the random draws given by `draws`. Shuffling
   * only reorders: same length, same elements, same multiplicities.
   */
  function Shuffle<T>(s: seq<T>, draws: nat -> nat): (r: seq<T>)
    ensures |r| == |s| && multiset(r) == multiset(s)
  {
    if |s| <= 1 then s else ShuffleDown(s, draws, |s| - 1)
  }

  /** `offset = len(feats) / 10`; `feats[:offset]` is trained on and `feats[offset:]` tested. */
  function Split(xs: seq<Example>): (seq<Example>, seq<Example>) {
    (xs[..|xs| / 10], xs[|xs| / 10..])
  }

  /** What `train(train)` trains on inside `cross_validate`: an empty partition means the whole (shuffled) cache. */
  function TrainingSet(xs: seq<Example>): seq<Example> {
    if Split(xs).0 != [] then Split(xs).0 else xs
  }

  /**
   * The split loses and repeats nothing, and gives the first tenth (rounded
   * down) to training. Below ten examples the training partition is empty,
   * so the classifier is trained on every example and tested on every
   * example; from ten on, it is trained on the first tenth only.
   */
  lemma SplitSpec(xs: seq<Example>)
    ensures |Split(xs).0| == |xs| / 10 && Split(xs).0 + Split(xs).1 == xs
    ensures |xs| < 10 ==> TrainingSet(xs) == xs && Split(xs).1 == xs
    ensures |xs| >= 10 ==> TrainingSet(xs) == xs[..|xs| / 10] && |TrainingSet(xs)| < |xs|
  {
  }

  /**
   * Everything a build can change: the files and the clock readings taken,
   * and the builder's own fields.
   */
  datatype State<C> = State(
    files: map<string, File<C>>,
    ticks: nat,
    cache: Option<seq<Example>>,
    accuracy: Option<real>,
    started: Option<DateTime>,
    finished: Option<DateTime>,
    buildtime: Option<real>,
    feattime: Option<real>,
    traintime: Option<real>,
    validtime: Option<real>,
    trace: seq<Phase>)

  class ClassifierBuilder<C> {
    const env: Environment<C>
    const learner: Learner<C>
    const featurizer: ProductFeatures
    const corpus: string
    const validate: bool
    const outpath: string
    const modelPath: string
    const infoPath: string

    var accuracy: Option<real>
    var started: Option<DateTime>
    var finished: Option<DateTime>
    var buildtime: Option<real>
    var feattime: Option<real>
    var traintime: Option<real>
    var validtime: Option<real>
    /** `_featureset`: `None` until the corpus is first read. */
    var cache: Option<seq<Example>>
    /** The steps taken so far, in order. */
    ghost var trace: seq<Phase>

    /** The builder and its environment as one value. */
    ghost function Snap(): State<C>
      reads this, env
    {
      State(env.files, env.ticks, cache, accuracy, started, finished,
            buildtime, feattime, traintime, validtime, trace)
    }

    constructor (env: Environment<C>, learner: Learner<C>, featurizer: ProductFeatures,
                 corpus: string, validate: bool, outpath: string, modelPath: string, infoPath: string)
      ensures this.env == env && this.learner == learner && this.featurizer == featurizer
      ensures this.corpus == corpus && this.validate == validate && this.outpath == outpath
      ensures this.modelPath == modelPath && this.infoPath == infoPath
      ensures Snap() == State(env.files, env.ticks, None, None, None, None, None, None, None, None, [])
    {
      this.env := env;
      this.learner := learner;
      this.featurizer := featurizer;
      this.corpus := corpus;
      this.validate := validate;
      this.outpath := outpath;
      this.modelPath := modelPath;
      this.infoPath := infoPath;
      accuracy, started, finished := None, None, None;
      buildtime, feattime, traintime, validtime := None, None, None, None;
      cache := None;
      trace := [];
    }

    /**
     * `get_output_paths`: the model and record paths for today, refused
     * (naming the first one found) if either already exists.
     */
    static method GetOutputPaths(outpath: string, today: DateTime, files: map<string, File<C>>)
      returns (r: Result<(string, string), BuildError>)
      ensures var m, i := OutputPaths(outpath, today).0, OutputPaths(outpath, today).1;
        && (r.Success? <==> m !in files && i !in files)
        && (r.Success? ==> r.value == (m, i))
        && (r.Failure? ==> r.error == OutputExists(if m in files then m else i))
    {
      var stamp := Stamp(today);
      var mname := PathJoin(outpath, "model-" + stamp + ".pickle");
      var iname := PathJoin(outpath, "info-" + stamp + ".json");
      var names := [mname, iname];
      assert (mname, iname) == OutputPaths(outpath, today);
      var k := 0;
      while k < |names|
        invariant 0 <= k <= |names|
        invariant forall j :: 0 <= j < k ==> names[j] !in files
      {
        if names[k] in files {
          assert k == 1 ==> names[0] !in files;
          return Failure(OutputExists(names[k]));
        }
        k := k + 1;
      }
      assert names[0] !in files && names[1] !in files;
      return Success((mname, iname));
    }

    /**
     * `ClassifierBuilder(corpus, validate=..., outpath=...)`: an empty corpus
     * path falls back to the configured one; `validate` defaults to true and
     * `outpath` to `"."`. Construction fails if an output file for today exists.
     */
    static method Create(env: Environment<C>, learner: Learner<C>, featurizer: ProductFeatures,
                         corpus: string, defaultCorpus: string, validate: Option<bool>, outpath: Option<string>)
      returns (r: Result<ClassifierBuilder<C>, BuildError>)
      modifies env`ticks
      ensures env.ticks == old(env.ticks) + 1
      ensures var dir := if outpath.Some? then outpath.value else ".";
        var m, i := OutputPaths(dir, env.calendar(old(env.ticks))).0, OutputPaths(dir, env.calendar(old(env.ticks))).1;
        && (r.Success? <==> m !in env.files && i !in env.files)
        && (r.Failure? ==> r.error == OutputExists(if m in env.files then m else i))
        && (r.Success? ==>
            && fresh(r.value)
            && r.value.Snap() == State(env.files, env.ticks, None, None, None, None, None, None, None, None, [])
            && r.value.env == env && r.value.learner == learner && r.value.featurizer == featurizer
            && r.value.corpus == (if corpus == "" then defaultCorpus else corpus)
            && r.value.validate == (if validate.Some? then validate.value else true)
            && r.value.outpath == dir
            && r.value.modelPath == m && r.value.infoPath == i)
    {
      var path := if corpus == "" then defaultCorpus else corpus;
      var check := if validate.Some? then validate.value else true;
      var dir := if outpath.Some? then outpath.value else ".";
      var today := env.Now();
      var paths := GetOutputPaths(dir, today, env.files);
      if paths.Failure? {
        return Failure(paths.error);
      }
      var builder := new ClassifierBuilder(env, learner, featurizer, path, check, dir, paths.value.0, paths.value.1);
      return Success(builder);
    }

    /** What reading the corpus leaves in the cache, and the error that cut it short, if any. */
    function ReadOutcome(files: map<string, File<C>>): (seq<Example>, Option<BuildError>) {
      match CorpusRows(files, corpus)
      case None => ([], Some(CorpusUnreadable(corpus)))
      case Some(rows) => Load(featurizer, rows)
    }

    /** `featureset()` from state `s`: its result and the state after it. */
    ghost function FetchStep(s: State<C>): (r: (Result<seq<Example>, BuildError>, State<C>))
      ensures r.1.started == s.started
    {
      if s.cache.Some? then (Success(s.cache.value), s)
      else ReadStep(s, ReadOutcome(s.files).0, ReadOutcome(s.files).1)
    }

    /** The first `featureset()` call from state `s`, once reading has produced `xs` and `err`. */
    ghost function ReadStep(s: State<C>, xs: seq<Example>, err: Option<BuildError>): (r: (Result<seq<Example>, BuildError>, State<C>))
      ensures r.1.started == s.started
    {
      var read := s.(ticks := s.ticks + 1, cache := Some(xs), trace := s.trace + [ReadCorpus(corpus)]);
      if err.Some? then (Failure(err.value), read)
      else (Success(xs), read.(ticks := s.ticks + 2, feattime := Some(env.clock(s.ticks + 1) - env.clock(s.ticks))))
    }

    /** The timed learner call inside `train`, from state `s`. */
    ghost function FitStep(s: State<C>, examples: seq<Example>): (r: ((C, real), State<C>))
      ensures r.1.started == s.started
    {
      ((learner.train(examples), env.clock(s.ticks + 1) - env.clock(s.ticks)),
       s.(ticks := s.ticks + 2, trace := s.trace + [Trained(examples)]))
    }

    /** `train(featureset)` from state `s`. */
    ghost function TrainStep(s: State<C>, featureset: seq<Example>): (r: (Result<(C, real), BuildError>, State<C>))
      ensures r.1.started == s.started
    {
      if featureset != [] then
        var (fit, t) := FitStep(s, featureset);
        (Success(fit), t)
      else
        var (f, t) := FetchStep(s);
        if f.Failure? then (Failure(f.error), t)
        else
          var (fit, u) := FitStep(t, f.value);
          (Success(fit), u)
    }

    /** The part of `cross_validate` after the featureset is at hand, from state `s`. */
    ghost function ValidateStep(s: State<C>, feats: seq<Example>, draws: nat -> nat, start: real): (r: State<C>)
      ensures r.started == s.started
    {
      var xs := Shuffle(feats, draws);
      var (train, test) := Split(xs);
      var (trained, t) := TrainStep(s.(cache := Some(xs)), train);
      match trained
      case Failure(_) => t
      case Success((classifier, _)) => ScoreStep(t, classifier, test, start)
    }

    /** Scoring the classifier on the test examples and timing the validation, from state `s`. */
    ghost function ScoreStep(s: State<C>, classifier: C, test: seq<Example>, start: real): State<C> {
      s.(ticks := s.ticks + 1,
         accuracy := Some(learner.accuracy(classifier, test)),
         validtime := Some(env.clock(s.ticks) - start),
         trace := s.trace + [Scored(test)])
    }

    /** `cross_validate()` from state `s`. */
    ghost function CrossValidateStep(s: State<C>, draws: nat -> nat): (r: (Result<(), BuildError>, State<C>))
      ensures r.1.started == s.started
    {
      var (f, t) := FetchStep(s.(ticks := s.ticks + 1));
      if f.Failure? then (Failure(f.error), t)
      else (Success(()), ValidateStep(t, f.value, draws, env.clock(s.ticks)))
    }

    /** The record for a build that started and finished as `s` says. */
    function Record(started: DateTime, finished: DateTime, accuracy: Option<real>, timer: Timer): Details {
      Details(
        Version.GetVersion(),
        Format(started),
        Format(finished),
        accuracy,
        validate,
        corpus,
        modelPath,
        infoPath,
        "MaxentClassifier",
        "ProductFeatures",
        timer)
    }

    /** The record `write_details` writes in state `s`. */
    ghost function RecordOf(s: State<C>): Details
      requires s.started.Some? && s.finished.Some?
    {
      Record(s.started.value, s.finished.value, s.accuracy,
             Timer(s.buildtime, s.feattime, s.validtime, s.traintime))
    }

    /** The start of `build()` from state `s`: the start date, then the start time. */
    ghost function BeginStep(s: State<C>): (real, State<C>) {
      (env.clock(s.ticks + 1), s.(ticks := s.ticks + 2, started := Some(env.calendar(s.ticks))))
    }

    /** Keeping the training time and writing the model, from state `s`. */
    ghost function SaveStep(s: State<C>, classifier: C, seconds: real): State<C> {
      s.(traintime := Some(seconds),
         files := s.files[modelPath := Pickle(classifier)],
         trace := s.trace + [Saved(modelPath)])
    }

    /** The end of `build()` from state `s`: finish date, total time, then the record. */
    ghost function CompleteStep(s: State<C>, start: real): State<C>
      requires s.started.Some?
    {
      var done := s.(ticks := s.ticks + 2,
                     finished := Some(env.calendar(s.ticks)),
                     buildtime := Some(env.clock(s.ticks + 1) - start));
      done.(files := done.files[infoPath := Json(RecordOf(done))],
            trace := done.trace + [Saved(infoPath)])
    }

    /** `build()` from state `s`. */
    ghost function BuildStep(s: State<C>, draws: nat -> nat): (Result<(), BuildError>, State<C>) {
      var (start, begun) := BeginStep(s);
      var (trained, t) := TrainStep(begun, []);
      match trained
      case Failure(e) => (Failure(e), t)
      case Success((classifier, seconds)) =>
        var saved := SaveStep(t, classifier, seconds);
        var checked := if validate then CrossValidateStep(saved, draws).1 else saved;
        (Success(()), CompleteStep(checked, start))
    }

    /**
     * `featureset()` reads the corpus at most once: a second call returns the
     * cached list and changes nothing, and the first call changes only the
     * cache, the clock, `feattime` and the trace.
     */
    lemma FetchOnce(s: State<C>)
      ensures var (r1, t1) := FetchStep(s);
        && t1.cache.Some?
        && FetchStep(t1) == (Success(t1.cache.value), t1)
        && (r1.Success? ==> r1.value == t1.cache.value)
        && t1.files == s.files && t1.accuracy == s.accuracy && t1.traintime == s.traintime
        && t1.validtime == s.validtime && t1.buildtime == s.buildtime && t1.finished == s.finished
        && t1.started == s.started
        && (r1.Failure? ==> t1.feattime == s.feattime)
        && (s.cache.Some? ==> t1 == s && r1 == Success(s.cache.value))
        && (s.cache.None? ==> t1.trace == s.trace + [ReadCorpus(corpus)])
    {
    }

    /**
     * A first `featureset()` call over readable rows yields one example per
     * row, in row order, labelled with the row's `category`; if a row cannot
     * be used, the call fails on that row and the cache keeps the examples of
     * the rows before it. An unreadable corpus leaves an empty cache.
     */
    lemma {:induction false} FetchRows(s: State<C>)
      requires s.cache.None?
      ensures CorpusRows(s.files, corpus).None? ==>
        FetchStep(s).0 == Failure(CorpusUnreadable(corpus)) && FetchStep(s).1.cache == Some([])
      ensures CorpusRows(s.files, corpus).Some? ==>
        var rows := CorpusRows(s.files, corpus).value;
        var (r, t) := FetchStep(s);
        var xs := t.cache.value;
        && |xs| <= |rows|
        && (r.Success? <==> |xs| == |rows|)
        && (forall i :: 0 <= i < |xs| ==>
              "category" in rows[i] && xs[i].1 == rows[i]["category"] && RowExample(featurizer, rows[i], i) == Success(xs[i]))
        && (r.Failure? ==> |xs| < |rows| && RowExample(featurizer, rows[|xs|], |xs|) == Failure(r.error))
    {
      if CorpusRows(s.files, corpus).Some? {
        LoadSpec(featurizer, CorpusRows(s.files, corpus).value);
      }
    }

    /**
     * `train` trains on the examples it is given, leaving the cache alone;
     * given none, it trains on the whole featureset (read now, or the cached
     * list) and fails only when reading fails.
     */
    lemma TrainFallback(s: State<C>, featureset: seq<Example>)
      ensures featureset != [] ==>
        && TrainStep(s, featureset).0 == Success((learner.train(featureset), env.clock(s.ticks + 1) - env.clock(s.ticks)))
        && TrainStep(s, featureset).1.cache == s.cache
        && TrainStep(s, featureset).1.trace == s.trace + [Trained(featureset)]
      ensures featureset == [] ==>
        var (f, t) := FetchStep(s);
        var (r, u) := TrainStep(s, []);
        && (r.Success? <==> f.Success?)
        && (r.Failure? ==> r.error == f.error && u == t)
        && (r.Success? ==> r.value.0 == learner.train(f.value) && u.cache == t.cache && u.trace == t.trace + [Trained(f.value)])
      ensures featureset == [] && s.cache.Some? ==>
        TrainStep(s, []).0.Success? && TrainStep(s, []).0.value.0 == learner.train(s.cache.value)
    {
    }

    /**
     * Once the featureset is at hand, validation trains on the training part
     * of the shuffled list (all of it when that part is empty), scores the
     * classifier on the test part, and leaves the shuffled list in the cache.
     */
    lemma ValidateSpec(s: State<C>, feats: seq<Example>, draws: nat -> nat, start: real)
      ensures var xs := Shuffle(feats, draws);
        var u := ValidateStep(s, feats, draws, start);
        && u.cache == Some(xs)
        && u.accuracy == Some(learner.accuracy(learner.train(TrainingSet(xs)), Split(xs).1))
        && u.validtime.Some?
        && u.files == s.files && u.traintime == s.traintime && u.feattime == s.feattime
        && u.started == s.started && u.buildtime == s.buildtime && u.finished == s.finished
        && u.trace == s.trace + [Trained(TrainingSet(xs)), Scored(Split(xs).1)]
    {
      var xs := Shuffle(feats, draws);
      var cached := s.(cache := Some(xs));
      if Split(xs).0 == [] {
        assert FetchStep(cached) == (Success(xs), cached);
        assert TrainStep(cached, []) == (Success(FitStep(cached, xs).0), FitStep(cached, xs).1);
      } else {
        assert TrainStep(cached, Split(xs).0) == (Success(FitStep(cached, Split(xs).0).0), FitStep(cached, Split(xs).0).1);
      }
    }

    /**
     * `cross_validate` shuffles the featureset in place (the cache ends up a
     * permutation of it), trains on the training part of the split and keeps
     * the accuracy on the test part; it writes no file. When the featureset
     * cannot be read it fails and measures nothing.
     */
    lemma CrossValidateSpec(s: State<C>, draws: nat -> nat)
      ensures var (f, t) := FetchStep(s.(ticks := s.ticks + 1));
        var (r, u) := CrossValidateStep(s, draws);
        && (r.Success? <==> f.Success?)
        && u.files == s.files && u.traintime == s.traintime
        && u.started == s.started && u.buildtime == s.buildtime && u.finished == s.finished
        && (f.Failure? ==>
            r == Failure(f.error) && u.accuracy == s.accuracy && u.validtime == s.validtime && u.feattime == s.feattime)
        && (f.Success? ==>
            var xs := Shuffle(f.value, draws);
            && u.cache == Some(xs)
            && u.accuracy == Some(learner.accuracy(learner.train(TrainingSet(xs)), Split(xs).1))
            && u.validtime.Some?
            && u.trace == t.trace + [Trained(TrainingSet(xs)), Scored(Split(xs).1)])
    {
      var counted := s.(ticks := s.ticks + 1);
      var (f, t) := FetchStep(counted);
      FetchOnce(counted);
      if f.Failure? {
        assert CrossValidateStep(s, draws) == (Failure(f.error), t);
      } else {
        assert CrossValidateStep(s, draws) == (Success(()), ValidateStep(t, f.value, draws, env.clock(s.ticks)));
        ValidateSpec(t, f.value, draws, env.clock(s.ticks));
      }
    }

    /** A build that cannot read its featureset writes nothing and measures nothing. */
    lemma BuildFailure(s: State<C>, draws: nat -> nat)
      requires FetchStep(BeginStep(s).1).0.Failure?
      ensures var (r, u) := BuildStep(s, draws);
        && r == Failure(FetchStep(BeginStep(s).1).0.error)
        && u.files == s.files
        && u.started == Some(env.calendar(s.ticks))
        && u.accuracy == s.accuracy && u.traintime == s.traintime && u.validtime == s.validtime
        && u.finished == s.finished && u.buildtime == s.buildtime && u.feattime == s.feattime
    {
    }

    /**
     * A build that reads its featureset trains on all of it, writes that
     * model, then (if asked to) cross-validates, then writes the record: the
     * model file holds the classifier trained on the whole featureset, the
     * record file the final record, and no accuracy is measured unless the
     * builder validates.
     */
    lemma BuildSuccess(s: State<C>, draws: nat -> nat)
      requires FetchStep(BeginStep(s).1).0.Success?
      ensures var (f, t) := FetchStep(BeginStep(s).1);
        var full := f.value;
        var xs := Shuffle(full, draws);
        var (r, u) := BuildStep(s, draws);
        && r == Success(())
        && u.started == Some(env.calendar(s.ticks))
        && u.finished.Some? && u.traintime.Some? && u.buildtime.Some?
        && u.files == s.files[modelPath := Pickle(learner.train(full))][infoPath := Json(RecordOf(u))]
        && (validate ==>
            && u.cache == Some(xs)
            && u.accuracy == Some(learner.accuracy(learner.train(TrainingSet(xs)), Split(xs).1))
            && u.trace == t.trace + [Trained(full)] + [Saved(modelPath)] + [Trained(TrainingSet(xs)), Scored(Split(xs).1)] + [Saved(infoPath)])
        && (!validate ==>
            && u.cache == Some(full)
            && u.accuracy == s.accuracy && u.validtime == s.validtime
            && u.trace == t.trace + [Trained(full)] + [Saved(modelPath)] + [Saved(infoPath)])
    {
      var (start, begun) := BeginStep(s);
      var (f, t) := FetchStep(begun);
      FetchOnce(begun);
      TrainFallback(begun, []);
      var (trained, t2) := TrainStep(begun, []);
      assert trained.Success? && trained.value.0 == learner.train(f.value);
      assert t2.cache == Some(f.value) && t2.trace == t.trace + [Trained(f.value)];
      var saved := SaveStep(t2, trained.value.0, trained.value.1);
      var checked := if validate then CrossValidateStep(saved, draws).1 else saved;
      if validate {
        FetchOnce(saved.(ticks := saved.ticks + 1));
        CrossValidateSpec(saved, draws);
      }
      assert BuildStep(s, draws) == (Success(()), CompleteStep(checked, start));
      CompleteSpec(checked, start);
    }

    /** The end of a build writes the record (and only the record) and measures the total time. */
    lemma CompleteSpec(s: State<C>, start: real)
      requires s.started.Some?
      ensures var u := CompleteStep(s, start);
        && u.finished.Some? && u.buildtime.Some?
        && u.files == s.files[infoPath := Json(RecordOf(u))]
        && u.trace == s.trace + [Saved(infoPath)]
        && u.started == s.started && u.cache == s.cache && u.accuracy == s.accuracy
        && u.traintime == s.traintime && u.validtime == s.validtime && u.feattime == s.feattime
    {
    }

    /**
     * The record names the package version, says whether validation was
     * requested, points at the builder's output paths, carries the measured
     * accuracy, and stamps both dates in the 24-character `DATE_FORMAT` form.
     */
    lemma RecordSpec(s: State<C>)
      requires s.started.Some? && s.finished.Some?
      ensures RecordOf(s).version == "1.0.0"
      ensures RecordOf(s).validated == validate
      ensures RecordOf(s).modelPath == modelPath && RecordOf(s).infoPath == infoPath
      ensures RecordOf(s).accuracy == s.accuracy
      ensures |RecordOf(s).started| == 24 && |RecordOf(s).finished| == 24
    {
    }

    /**
     * Once a build whose paths were chosen on day `d` has succeeded, a new
     * builder for the same directory on the same day is refused: its model
     * path is taken.
     */
    lemma RebuildSameDayRefused(s: State<C>, draws: nat -> nat, d: DateTime, today: DateTime)
      requires modelPath == OutputPaths(outpath, d).0
      requires BuildStep(s, draws).0.Success?
      requires today.year == d.year && today.month == d.month && today.day == d.day
      ensures OutputPaths(outpath, today).0 in BuildStep(s, draws).1.files
    {
      OutputPathsByDay(outpath, d, today);
      if FetchStep(BeginStep(s).1).0.Success? {
        BuildSuccess(s, draws);
      } else {
        BuildFailure(s, draws);
      }
    }

    /**
     * `featureset()`: the first call reads the corpus and caches one example
     * per row; every later call returns the cached list.
     */
    method FeatureSet() returns (r: Result<seq<Example>, BuildError>)
      modifies this`cache, this`feattime, this`trace, env`ticks
      ensures (r, Snap()) == FetchStep(old(Snap()))
    {
      if cache.Some? {
        return Success(cache.value);
      }
      r := Read();
    }

    /** The first `featureset()` call: reads and featurizes the corpus, timing the whole. */
    method Read() returns (r: Result<seq<Example>, BuildError>)
      requires cache.None?
      modifies this`cache, this`feattime, this`trace, env`ticks
      ensures (r, Snap()) == FetchStep(old(Snap()))
    {
      ghost var before := Snap();
      var start := env.Time();
      trace := trace + [ReadCorpus(corpus)];
      var rows := CorpusRows(env.files, corpus);
      if rows.None? {
        cache := Some([]);
        assert ReadOutcome(before.files) == ([], Some(CorpusUnreadable(corpus)));
        assert FetchStep(before) == ReadStep(before, [], Some(CorpusUnreadable(corpus)));
        return Failure(CorpusUnreadable(corpus));
      }
      var xs, err := LoadRows(featurizer, rows.value);
      assert ReadOutcome(before.files) == (xs, err);
      assert FetchStep(before) == ReadStep(before, xs, err);
      cache := Some(xs);
      if err.Some? {
        return Failure(err.value);
      }
      var stop := env.Time();
      feattime := Some(stop - start);
      return Success(xs);
    }

    /**
     * `train(featureset)`: trains on the given examples, or on the whole
     * featureset when they are empty.
     */
    method Train(featureset: seq<Example>) returns (r: Result<(C, real), BuildError>)
      modifies this`cache, this`feattime, this`trace, env`ticks
      ensures (r, Snap()) == TrainStep(old(Snap()), featureset)
    {
      var examples := featureset;
      if featureset == [] {
        var fs := FeatureSet();
        if fs.Failure? {
          return Failure(fs.error);
        }
        examples := fs.value;
      }
      var fit := Fit(examples);
      return Success(fit);
    }

    /** The timed call of the learner inside `train`. */
    method Fit(examples: seq<Example>) returns (r: (C, real))
      modifies this`trace, env`ticks
      ensures (r, Snap()) == FitStep(old(Snap()), examples)
    {
      var start := env.Time();
      var classifier := learner.train(examples);
      trace := trace + [Trained(examples)];
      var stop := env.Time();
      return (classifier, stop - start);
    }

    /**
     * `cross_validate()`: shuffles the cached featureset in place, trains on
     * its first tenth (or on all of it when that tenth is empty) and records
     * the accuracy on the remainder.
     */
    method CrossValidate(draws: nat -> nat) returns (r: Result<(), BuildError>)
      modifies this`cache, this`feattime, this`trace, this`accuracy, this`validtime, env`ticks
      ensures (r, Snap()) == CrossValidateStep(old(Snap()), draws)
    {
      ghost var before := Snap();
      var start := env.Time();
      ghost var counted := Snap();
      assert counted == before.(ticks := before.ticks + 1) && start == env.clock(before.ticks);
      var fs := FeatureSet();
      ghost var fetched := Snap();
      assert (fs, fetched) == FetchStep(counted);
      if fs.Failure? {
        assert CrossValidateStep(before, draws) == (Failure(fs.error), fetched);
        return Failure(fs.error);
      }
      Validate(fs.value, draws, start);
      assert CrossValidateStep(before, draws) == (Success(()), ValidateStep(fetched, fs.value, draws, start));
      return Success(());
    }

    /** The body of `cross_validate` once the featureset is at hand. */
    method Validate(feats: seq<Example>, draws: nat -> nat, start: real)
      modifies this`cache, this`feattime, this`trace, this`accuracy, this`validtime, env`ticks
      ensures Snap() == ValidateStep(old(Snap()), feats, draws, start)
    {
      var offset := |feats| / 10;
      var shuffled := Shuffle(feats, draws);
      cache := Some(shuffled);
      var train := shuffled[..offset];
      var test := shuffled[offset..];
      var trained := Train(train);
      if trained.Success? {
        Score(trained.value.0, test, start);
      }
    }

    /** `self.accuracy = accuracy(classifier, test)` and the validation time. */
    method Score(classifier: C, test: seq<Example>, start: real)
      modifies this`accuracy, this`validtime, this`trace, env`ticks
      ensures Snap() == ScoreStep(old(Snap()), classifier, test, start)
    {
      accuracy := Some(learner.accuracy(classifier, test));
      trace := trace + [Scored(test)];
      var stop := env.Time();
      validtime := Some(stop - start);
    }

    /** `write_details()`: the record is written to the record path. */
    method WriteDetails()
      requires started.Some? && finished.Some?
      modifies env`files, this`trace
      ensures Snap() == old(Snap()).(files := old(env.files)[infoPath := Json(RecordOf(old(Snap())))],
                                     trace := old(trace) + [Saved(infoPath)])
    {
      var details := Record(started.value, finished.value, accuracy, Timer(buildtime, feattime, validtime, traintime));
      env.Write(infoPath, Json(details));
      trace := trace + [Saved(infoPath)];
    }

    /**
     * `build()`: train on the whole featureset and write the model, then
     * cross-validate if asked to, then write the record.
     */
    method Build(draws: nat -> nat) returns (r: Result<(), BuildError>)
      modifies this`cache, this`feattime, this`trace, this`accuracy, this`validtime
      modifies this`started, this`finished, this`traintime, this`buildtime
      modifies env`ticks, env`files
      ensures (r, Snap()) == BuildStep(old(Snap()), draws)
    {
      var start := Begin();
      var trained := Train([]);
      if trained.Failure? {
        return Failure(trained.error);
      }
      SaveModel(trained.value.0, trained.value.1);
      if validate {
        var validated := CrossValidate(draws);
      }
      Complete(start);
      return Success(());
    }

    /** `self.started = datetime.now()`, then the start time. */
    method Begin() returns (start: real)
      modifies this`started, env`ticks
      ensures (start, Snap()) == BeginStep(old(Snap()))
    {
      var now := env.Now();
      started := Some(now);
      start := env.Time();
    }

    /** Keeps the training time and writes the model to the model path. */
    method SaveModel(classifier: C, seconds: real)
      modifies this`traintime, this`trace, env`files
      ensures Snap() == SaveStep(old(Snap()), classifier, seconds)
    {
      traintime := Some(seconds);
      env.Write(modelPath, Pickle(classifier));
      trace := trace + [Saved(modelPath)];
    }

    /** `self.finished`, `self.buildtime`, then `write_details()`. */
    method Complete(start: real)
      requires started.Some?
      modifies this`finished, this`buildtime, this`trace, env`ticks, env`files
      ensures Snap() == CompleteStep(old(Snap()), start)
    {
      ghost var before := Snap();
      Finish(start);
      ghost var done := Snap();
      assert done == before.(ticks := before.ticks + 2,
                             finished := Some(env.calendar(before.ticks)),
                             buildtime := Some(env.clock(before.ticks + 1) - start));
      WriteDetails();
      assert Snap() == done.(files := done.files[infoPath := Json(RecordOf(done))],
                             trace := done.trace + [Saved(infoPath)]);
    }

    /** `self.finished = datetime.now()` and `self.buildtime`. */
    method Finish(start: real)
      modifies this`finished, this`buildtime, env`ticks
      ensures Snap() == old(Snap()).(ticks := old(env.ticks) + 2,
                                     finished := Some(env.calendar(old(env.ticks))),
                                     buildtime := Some(env.clock(old(env.ticks) + 1) - start))
    {
      var end := env.Now();
      finished := Some(end);
      var stop := env.Time();
      buildtime := Some(stop - start);
    }
  }
}
