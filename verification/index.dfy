/**
 * Building the template index: classifying each entry of a directory walk
 * and folding the classifications into the set of lookup-able template names.
 * Reading and parsing a file are oracles; the walk is the list of entries it
 * visits, in order.
 */
module TemplateIndex {
  import opened Wrappers
  import opened Paths

  /** The only file extension that is indexed. */
  const TemplateExt: string := ".gohtml"

  /**
   * One call of the walk function: the visited path, whether it is a
   * directory, and the error the walk hands in (then the file info is unused).
   */
  datatype WalkEntry = WalkEntry(path: string, isDir: bool, walkErr: Option<string>)

  /**
   * The outside world of indexing: reading a file's bytes, and parsing a
   * template body under a name (None on success, Some(message) on a parse error).
   */
  datatype Oracles = Oracles(
    readFile: string -> Result<string, string>,
    parse: (string, string) -> Option<string>)

  /** What the walk function makes of one entry. */
  datatype EntryOutcome = Indexed(name: string) | Skipped | Failed(err: string)

  /** A regular file whose final element ends in the template extension. */
  predicate IsTemplateFile(e: WalkEntry, sep: char)
  {
    !e.isDir && Ext(e.path, sep) == TemplateExt
  }

  /** The name a template file is indexed under: its slash path relative to the root. */
  function TemplateName(root: string, e: WalkEntry, sep: char): Option<string>
  {
    match Rel(root, e.path, sep)
    case Success(rel) => Some(ToSlash(rel, sep))
    case Failure(_) => None
  }

  /**
   * indexTemplate: a walk error propagates; a template file is read and
   * parsed under its relative slash name, and any failure on the way
   * propagates; every other entry is skipped.
   */
  function IndexTemplate(root: string, e: WalkEntry, sep: char, fs: Oracles): (r: EntryOutcome)
    ensures e.walkErr.Some? ==> r == Failed(e.walkErr.value)
    ensures e.walkErr.None? && !IsTemplateFile(e, sep) ==> r == Skipped
    ensures r.Skipped? ==> e.walkErr.None? && !IsTemplateFile(e, sep)
    ensures r.Indexed? ==> e.walkErr.None? && IsTemplateFile(e, sep)
    ensures r.Indexed? ==> TemplateName(root, e, sep) == Some(r.name)
    ensures r.Indexed? ==>
      fs.readFile(e.path).Success? && fs.parse(r.name, fs.readFile(e.path).value).None?
    ensures r.Indexed? ==> r.name != ""
    ensures e.walkErr.None? && IsTemplateFile(e, sep) && Rel(root, e.path, sep).Failure? ==>
      r == Failed(Rel(root, e.path, sep).error)
    ensures e.walkErr.None? && IsTemplateFile(e, sep) && Rel(root, e.path, sep).Success? ==>
      var name := ToSlash(Rel(root, e.path, sep).value, sep);
      match fs.readFile(e.path)
      case Failure(err) => r == Failed(err)
      case Success(content) =>
        (fs.parse(name, content).Some? ==> r == Failed(fs.parse(name, content).value))
        && (fs.parse(name, content).None? ==> r == Indexed(name))
  {
    match e.walkErr
    case Some(err) => Failed(err)
    case None =>
      if !IsTemplateFile(e, sep) then Skipped
      else
        match Rel(root, e.path, sep)
        case Failure(err) => Failed(err)
        case Success(rel) =>
          var name := ToSlash(rel, sep);
          match fs.readFile(e.path)
          case Failure(err) => Failed(err)
          case Success(content) =>
            match fs.parse(name, content)
            case Some(err) => Failed(err)
            case None => Indexed(name)
  }

  /** The outcome of the walk function on every entry, in walk order. */
  function Classify(root: string, entries: seq<WalkEntry>, sep: char, fs: Oracles): (outs: seq<EntryOutcome>)
    ensures |outs| == |entries|
    ensures forall i :: 0 <= i < |entries| ==> outs[i] == IndexTemplate(root, entries[i], sep, fs)
  {
    seq(|entries|, i requires 0 <= i < |entries| => IndexTemplate(root, entries[i], sep, fs))
  }

  /**
   * The walk's fold: an indexed entry adds its name, a skipped one nothing,
   * and the first failure aborts with that failure.
   */
  function Collect(outs: seq<EntryOutcome>): (r: Result<set<string>, string>)
    ensures r.Success? ==> |r.value| <= |outs|
    decreases |outs|
  {
    if |outs| == 0 then Success({})
    else
      match outs[0]
      case Failed(err) => Failure(err)
      case Skipped => Collect(outs[1..])
      case Indexed(name) =>
        match Collect(outs[1..])
        case Failure(err) => Failure(err)
        case Success(names) => Success({name} + names)
  }

  /**
   * indexTemplates: walk the entries in order, adding every indexed name to
   * the set; the first failing entry aborts indexing with its error. The
   * walk function is pure, so classifying every entry and folding is the
   * same as stopping at the first failure.
   */
  function IndexTemplates(root: string, entries: seq<WalkEntry>, sep: char, fs: Oracles)
    : Result<set<string>, string>
  {
    Collect(Classify(root, entries, sep, fs))
  }

  /** Names of the Indexed outcomes. */
  function IndexedNames(outs: seq<EntryOutcome>): set<string>
  {
    set i | 0 <= i < |outs| && outs[i].Indexed? :: outs[i].name
  }

  /** No outcome is a failure. */
  predicate NoFailure(outs: seq<EntryOutcome>)
  {
    forall i :: 0 <= i < |outs| ==> !outs[i].Failed?
  }

  /** Outcome `k` is the first failure. */
  predicate FirstFailure(outs: seq<EntryOutcome>, k: nat)
  {
    k < |outs| && outs[k].Failed? && forall i :: 0 <= i < k ==> !outs[i].Failed?
  }

  /** The fold succeeds exactly when no outcome is a failure. */
  lemma {:induction false} CollectSucceeds(outs: seq<EntryOutcome>)
    ensures Collect(outs).Success? <==> NoFailure(outs)
    decreases |outs|
  {
    if |outs| > 0 {
      CollectSucceeds(outs[1..]);
      assert forall i :: 1 <= i < |outs| ==> outs[i] == outs[1..][i - 1];
    }
  }

  /** On success the fold yields exactly the indexed names. */
  lemma {:induction false} CollectNames(outs: seq<EntryOutcome>)
    ensures Collect(outs).Success? ==> Collect(outs).value == IndexedNames(outs)
    decreases |outs|
  {
    if |outs| > 0 && Collect(outs).Success? {
      var rest := outs[1..];
      CollectNames(rest);
      var own := if outs[0].Indexed? then {outs[0].name} else {};
      forall n | n in IndexedNames(outs)
        ensures n in own + IndexedNames(rest)
      {
        var i :| 0 <= i < |outs| && outs[i].Indexed? && outs[i].name == n;
        if i > 0 {
          assert rest[i - 1] == outs[i];
        }
      }
      forall n | n in IndexedNames(rest)
        ensures n in IndexedNames(outs)
      {
        var j :| 0 <= j < |rest| && rest[j].Indexed? && rest[j].name == n;
        assert outs[j + 1] == rest[j];
      }
      assert IndexedNames(outs) == own + IndexedNames(rest);
    }
  }

  /** On failure the fold reports the error of the first failing outcome. */
  lemma {:induction false} CollectFirstError(outs: seq<EntryOutcome>)
    ensures Collect(outs).Failure? ==>
      exists k: nat :: FirstFailure(outs, k) && Collect(outs).error == outs[k].err
    decreases |outs|
  {
    if |outs| > 0 && Collect(outs).Failure? {
      if outs[0].Failed? {
        assert FirstFailure(outs, 0);
      } else {
        var rest := outs[1..];
        CollectFirstError(rest);
        var k: nat :| FirstFailure(rest, k) && Collect(rest).error == rest[k].err;
        assert forall i :: 1 <= i < |outs| ==> outs[i] == rest[i - 1];
        assert FirstFailure(outs, k + 1);
      }
    }
  }

  /**
   * Indexing succeeds exactly when no entry fails, and then yields precisely
   * the names of the entries that index (template files, read and parsed);
   * otherwise it reports the error of the first failing entry.
   */
  lemma IndexTemplatesSpec(root: string, entries: seq<WalkEntry>, sep: char, fs: Oracles)
    ensures IndexTemplates(root, entries, sep, fs).Success?
      <==> forall i :: 0 <= i < |entries| ==> !IndexTemplate(root, entries[i], sep, fs).Failed?
    ensures IndexTemplates(root, entries, sep, fs).Success? ==>
      IndexTemplates(root, entries, sep, fs).value
        == set i | 0 <= i < |entries| && IndexTemplate(root, entries[i], sep, fs).Indexed?
             :: IndexTemplate(root, entries[i], sep, fs).name
    ensures IndexTemplates(root, entries, sep, fs).Failure? ==>
      exists k: nat :: k < |entries| && IndexTemplate(root, entries[k], sep, fs).Failed?
        && (forall i :: 0 <= i < k ==> !IndexTemplate(root, entries[i], sep, fs).Failed?)
        && IndexTemplates(root, entries, sep, fs).error == IndexTemplate(root, entries[k], sep, fs).err
  {
    var outs := Classify(root, entries, sep, fs);
    CollectSucceeds(outs);
    CollectNames(outs);
    CollectFirstError(outs);
  }

  /** Every indexed name is non-empty, so "" never names a template. */
  lemma {:induction false} CollectNonEmpty(outs: seq<EntryOutcome>)
    requires forall i :: 0 <= i < |outs| && outs[i].Indexed? ==> outs[i].name != ""
    ensures Collect(outs).Success? ==> "" !in Collect(outs).value
    decreases |outs|
  {
    if |outs| > 0 {
      CollectNonEmpty(outs[1..]);
    }
  }

  /** The index never contains the empty name. */
  lemma IndexOmitsEmptyName(root: string, entries: seq<WalkEntry>, sep: char, fs: Oracles)
    ensures IndexTemplates(root, entries, sep, fs).Success? ==> "" !in IndexTemplates(root, entries, sep, fs).value
  {
    CollectNonEmpty(Classify(root, entries, sep, fs));
  }
}
