/** The downloader: `Downloader._split_name`, `Downloader._download_item`,
    `Downloader.download` and `Resource`. The local disk is a map from paths
    to file contents plus a set of directory paths; the network is a
    function from a URL to what a GET of it yields. */
module Downloads {
  import opened Py
  import opened Text

  type Bytes = seq<bv8>

  // --------------------------------------------------------------- names

  /** `_split_name`. */
  function SplitName(url: Option<string>): string {
    if url.None? then "data/resource" else AfterLast(BeforeFirst(url.value, '?'), '/')
  }

  /** `_split_name` gives a fixed name for no URL; otherwise the last path
      segment of the URL once its query string is cut off: the part of the
      URL before its first '?' ends with the name, which holds no '/' and
      follows a '/' or starts that part. */
  lemma SplitNameSpec(url: Option<string>)
    ensures url.None? ==> SplitName(url) == "data/resource"
    ensures url.Some? ==>
              var path := BeforeFirst(url.value, '?');
              var r := SplitName(url);
              && path <= url.value
              && '?' !in path
              && (|path| == |url.value| || url.value[|path|] == '?')
              && '/' !in r
              && |r| <= |path| && r == path[|path| - |r|..]
              && (|r| == |path| || path[|path| - |r| - 1] == '/')
  {
  }

  // ---------------------------------------------------------------- disk

  /** Files with their contents, and directories. */
  datatype Disk = Disk(files: map<string, Bytes>, dirs: set<string>)

  /** `os.path.exists`: the empty path never exists, the root always does. */
  predicate Exists(disk: Disk, p: string) {
    p != "" && (p in disk.files || p in disk.dirs || IsRoot(p))
  }

  /** `os.path.split(p)` once more on the head when the tail is empty, as
      `os.makedirs` does for a path with a trailing '/'. */
  function SplitForMakeDirs(name: string): (string, string) {
    var head := Head(name);
    var tail := AfterLast(name, '/');
    if tail == "" then (Head(head), AfterLast(head, '/')) else (head, tail)
  }

  /** `os.makedirs(name)`: the directories it adds, or the error it raises.
      It first creates a missing parent, recursively, then `mkdir`s `name`,
      which raises when `name` exists or its parent is a file. */
  function MakeDirs(disk: Disk, name: string): (r: Result<set<string>, Exception>)
    ensures r.Success? ==> disk.dirs <= r.value && name in r.value
    ensures r.Success? ==> forall d :: d in r.value && d !in disk.dirs ==> d <= name
    decreases |name|
  {
    if name == "" then Failure(FileNotFoundError)
    else
      var (head, tail) := SplitForMakeDirs(name);
      assert head != "" && tail != "" ==> |head| < |name| by {
        if AfterLast(name, '/') == "" && tail != "" {
          assert |head| < |Head(name)|;
        }
      }
      assert head <= name by {
        assert Head(name) <= name;
        if AfterLast(name, '/') == "" { assert Head(Head(name)) <= Head(name); }
      }
      var dirs :- if head != "" && tail != "" && !Exists(disk, head) then MakeDirs(disk, head) else Success(disk.dirs);
      if Exists(disk, name) || name in dirs then Failure(OSError)
      else if head != "" && head in disk.files then Failure(OSError)
      else Success(dirs + {name})
  }

  /** `open(path, 'wb')` succeeds: the path names a file whose directory
      exists. */
  predicate CanWrite(disk: Disk, path: string) {
    && AfterLast(path, '/') != ""
    && path !in disk.dirs
    && var parent := Head(path);
       parent == "" || parent in disk.dirs || IsRoot(parent)
  }

  // ------------------------------------------------------------- network

  /** What `session.get(url)` yields: a response, or an exception. */
  datatype Response = Fetched(status: int, body: Bytes) | FetchRaised

  /** The first decimal digit of `n`. */
  function LeadingDigit(n: nat): (d: nat)
    ensures d < 10
    ensures n > 0 ==> d > 0
  {
    if n < 10 then n else LeadingDigit(n / 10)
  }

  /** `str(status)[0] == '2'`. */
  predicate StatusOk(status: int) {
    status >= 0 && LeadingDigit(status) == 2
  }

  /** For a three-digit status, the first-digit test is the 2xx class. */
  lemma StatusOkIs2xx(status: int)
    requires 100 <= status <= 999
    ensures StatusOk(status) <==> 200 <= status <= 299
  {
    assert LeadingDigit(status) == LeadingDigit(status / 10) == status / 100;
  }

  // ----------------------------------------------------------- one item

  /** The path an item is saved to: `out or self._split_name(url)`. */
  function Target(url: string, out: Value): string {
    if out.PyStr? && out.s != "" then out.s else SplitName(Some(url))
  }

  /** What one `_download_item` call returns or raises, the disk after it,
      and whether it fetched the URL. */
  datatype Item = Item(result: Result<bool, Exception>, disk: Disk, fetched: bool)

  /** `_download_item(url, out, overwrite)` on `disk`. */
  function DownloadItemSpec(disk: Disk, respond: string -> Response, url: Value, out: Value, overwrite: bool): Item {
    if !url.PyStr? || out.PyOther? then Item(Failure(ValueError), disk, false)
    else
      var target := Target(url.s, out);
      match Prepared(disk, Head(target))
      case Failure(e) => Item(Failure(e), disk, false)
      case Success(dirs) => Save(Disk(disk.files, dirs), respond(url.s), target, overwrite)
  }

  /** The directories once the target's directory `dir` is ensured: it is
      created, with `os.makedirs`, only when it does not exist. */
  function Prepared(disk: Disk, dir: string): Result<set<string>, Exception> {
    if Exists(disk, dir) then Success(disk.dirs) else MakeDirs(disk, dir)
  }

  /** The rest of `_download_item` once the directory exists: skip an
      existing target, or fetch and write a 2xx body. */
  function Save(ready: Disk, response: Response, target: string, overwrite: bool): Item {
    if Exists(ready, target) && !overwrite then Item(Success(true), ready, false)
    else if response.Fetched? && StatusOk(response.status) && CanWrite(ready, target) then
      Item(Success(true), Disk(ready.files[target := response.body], ready.dirs), true)
    else
      Item(Success(false), ready, true)
  }

  /** An item raises exactly when its arguments are not strings, and then
      with ValueError, or when creating its directory raises. */
  lemma ItemRaises(disk: Disk, respond: string -> Response, url: Value, out: Value, overwrite: bool)
    ensures var r := DownloadItemSpec(disk, respond, url, out, overwrite);
            r.result.Failure? <==> !url.PyStr? || out.PyOther? || Prepared(disk, Head(Target(url.s, out))).Failure?
    ensures !url.PyStr? || out.PyOther? ==> DownloadItemSpec(disk, respond, url, out, overwrite).result == Failure(ValueError)
  {
  }

  /** An item raises only before any effect: nothing fetched, nothing
      written, no directory made. Once the fetch starts, every failure is a
      False result. */
  lemma RaisesBeforeEffects(disk: Disk, respond: string -> Response, url: Value, out: Value, overwrite: bool)
    ensures var r := DownloadItemSpec(disk, respond, url, out, overwrite);
            r.result.Failure? ==> r.disk == disk && !r.fetched
    ensures var r := DownloadItemSpec(disk, respond, url, out, overwrite);
            r.fetched ==> r.result.Success?
  {
  }

  /** An output path without a directory part always raises: `os.makedirs`
      is called on the empty directory name. */
  lemma BareNameRaises(disk: Disk, respond: string -> Response, url: string, out: Value, overwrite: bool)
    requires !out.PyOther?
    requires '/' !in Target(url, out)
    ensures DownloadItemSpec(disk, respond, PyStr(url), out, overwrite) == Item(Failure(FileNotFoundError), disk, false)
  {
    assert Head(Target(url, out)) == "";
  }

  /** So the default output name, which is a bare name, never downloads. */
  lemma DefaultNameRaises(disk: Disk, respond: string -> Response, url: string, out: Value, overwrite: bool)
    requires out == PyNone || out == PyStr("")
    ensures DownloadItemSpec(disk, respond, PyStr(url), out, overwrite) == Item(Failure(FileNotFoundError), disk, false)
  {
    SplitNameSpec(Some(url));
    BareNameRaises(disk, respond, url, out, overwrite);
  }

  /** An existing target with an existing directory is reported as saved,
      without a fetch and without touching the disk, unless overwriting. */
  lemma SkipExisting(disk: Disk, respond: string -> Response, url: string, out: Value)
    requires !out.PyOther?
    requires Exists(disk, Head(Target(url, out))) && Exists(disk, Target(url, out))
    ensures DownloadItemSpec(disk, respond, PyStr(url), out, false) == Item(Success(true), disk, false)
  {
  }

  /** What an item `r` that started from `disk` wrote: if it fetched, it
      reports success exactly when `response` is a 2xx response and the
      target can be written, and then the body is written at the target and
      nowhere else; otherwise no file changes. */
  predicate WritesAt(disk: Disk, r: Item, response: Response, target: string) {
    && (r.fetched ==>
          (r.result == Success(true) <==>
             response.Fetched? && StatusOk(response.status) && CanWrite(r.disk, target)))
    && (r.fetched && r.result == Success(true) ==> r.disk.files == disk.files[target := response.body])
    && (!(r.fetched && r.result == Success(true)) ==> r.disk.files == disk.files)
  }

  /** A fetched item reports success exactly when the status's first digit
      is 2 and the target can be written, and then the body is written at
      the target and nowhere else; otherwise no file changes. */
  lemma WritesOnlyOnSuccess(disk: Disk, respond: string -> Response, url: string, out: Value, overwrite: bool)
    requires !out.PyOther?
    ensures WritesAt(disk, DownloadItemSpec(disk, respond, PyStr(url), out, overwrite), respond(url), Target(url, out))
  {
    ItemCases(disk, respond, url, out, overwrite);
    PreparedWrites(disk, respond(url), Target(url, out), Prepared(disk, Head(Target(url, out))),
                   DownloadItemSpec(disk, respond, PyStr(url), out, overwrite), overwrite);
  }

  /** `WritesOnlyOnSuccess` for any item made of `Save` once the directory
      is ready, or of the exception that preparing it raised. */
  lemma PreparedWrites(disk: Disk, response: Response, target: string, prepared: Result<set<string>, Exception>,
                       r: Item, overwrite: bool)
    requires r == if prepared.Success? then Save(Disk(disk.files, prepared.value), response, target, overwrite)
                  else Item(Failure(prepared.error), disk, false)
    ensures WritesAt(disk, r, response, target)
  {
    if prepared.Success? {
      SaveWrites(Disk(disk.files, prepared.value), response, target, overwrite);
    }
  }

  /** Once its directory is ready, an item fetches exactly when its target
      does not exist yet or `overwrite` is set. */
  lemma FetchesUnlessSkipped(disk: Disk, respond: string -> Response, url: string, out: Value, overwrite: bool)
    requires !out.PyOther?
    ensures var target := Target(url, out);
            var prepared := Prepared(disk, Head(target));
            var r := DownloadItemSpec(disk, respond, PyStr(url), out, overwrite);
            prepared.Success? ==> (r.fetched <==> overwrite || !Exists(Disk(disk.files, prepared.value), target))
  {
    ItemCases(disk, respond, url, out, overwrite);
  }

  /** A well-typed item is `Save` once its directory is ready, or the
      exception that preparing the directory raised. */
  lemma ItemCases(disk: Disk, respond: string -> Response, url: string, out: Value, overwrite: bool)
    requires !out.PyOther?
    ensures var prepared := Prepared(disk, Head(Target(url, out)));
            DownloadItemSpec(disk, respond, PyStr(url), out, overwrite) ==
              if prepared.Success? then Save(Disk(disk.files, prepared.value), respond(url), Target(url, out), overwrite)
              else Item(Failure(prepared.error), disk, false)
  {
  }

  /** The step of `WritesOnlyOnSuccess` once the directory is ready. */
  lemma SaveWrites(ready: Disk, response: Response, target: string, overwrite: bool)
    ensures var r := Save(ready, response, target, overwrite);
            && (r.fetched ==>
                  (r.result == Success(true) <==>
                     response.Fetched? && StatusOk(response.status) && CanWrite(r.disk, target)))
            && (r.fetched && r.result == Success(true) ==> r.disk.files == ready.files[target := response.body])
            && (!(r.fetched && r.result == Success(true)) ==> r.disk.files == ready.files)
  {
    var r := Save(ready, response, target, overwrite);
    if r.fetched && r.result == Success(true) {
      assert r.disk.dirs == ready.dirs;
      assert CanWrite(r.disk, target) == CanWrite(ready, target);
    }
  }

  /** The disk only grows: no file or directory disappears. */
  predicate Grows(before: Disk, after: Disk) {
    before.files.Keys <= after.files.Keys && before.dirs <= after.dirs
  }

  /** An item that does not raise leaves its directory existing, and one that
      reports success leaves its target existing. */
  lemma ItemSettles(disk: Disk, respond: string -> Response, url: string, out: Value, overwrite: bool)
    requires !out.PyOther?
    ensures var r := DownloadItemSpec(disk, respond, PyStr(url), out, overwrite);
            && Grows(disk, r.disk)
            && (r.result.Success? ==> Exists(r.disk, Head(Target(url, out))))
            && (r.result == Success(true) ==> Exists(r.disk, Target(url, out)))
            && (forall d :: d in r.disk.dirs && d !in disk.dirs ==> d <= Head(Target(url, out)))
  {
    ItemCases(disk, respond, url, out, overwrite);
  }

  /** Existence survives growth. */
  lemma ExistsGrows(before: Disk, after: Disk, p: string)
    requires Grows(before, after) && Exists(before, p)
    ensures Exists(after, p)
  {
  }

  // ----------------------------------------------------------- the batch

  /** `Resource`: a URL and an output path, hashed by identity. */
  class Resource {
    const url: Value
    const out: Value

    constructor (url: Value, out: Value)
      ensures this.url == url && this.out == out
    {
      this.url := url;
      this.out := out;
    }
  }

  /** The items of a whole `download`, one after the other: each item's
      outcome, the final disk, and the URLs fetched in order. */
  datatype Pass = Pass(results: seq<Result<bool, Exception>>, disk: Disk, fetched: seq<string>)

  /** What one item, given its URL and output, does to a disk. */
  type ItemStep = (Disk, Value, Value) -> Item

  /** `_download_item(resource.url, resource.out, 6, overwrite)`. */
  function ItemOf(respond: string -> Response, overwrite: bool): ItemStep {
    (disk: Disk, url: Value, out: Value) => DownloadItemSpec(disk, respond, url, out, overwrite)
  }

  /** The URL an item fetched, if it fetched. */
  function FetchLog(item: Item, url: Value): seq<string> {
    if item.fetched && url.PyStr? then [url.s] else []
  }

  /** The items run one after the other, each on the disk the previous one
      left. */
  function RunItems(step: ItemStep, disk: Disk, resources: seq<Resource>): (p: Pass)
    ensures |p.results| == |resources|
    decreases |resources|
  {
    if resources == [] then Pass([], disk, [])
    else
      var prior := RunItems(step, disk, resources[..|resources| - 1]);
      var last := resources[|resources| - 1];
      var item := step(prior.disk, last.url, last.out);
      Pass(prior.results + [item.result], item.disk, prior.fetched + FetchLog(item, last.url))
  }

  /** One more item of a pass. */
  lemma PassExtend(step: ItemStep, disk: Disk, resources: seq<Resource>, i: nat)
    requires i < |resources|
    ensures RunItems(step, disk, resources[..i + 1])
            == var prior := RunItems(step, disk, resources[..i]);
               var item := step(prior.disk, resources[i].url, resources[i].out);
               Pass(prior.results + [item.result], item.disk, prior.fetched + FetchLog(item, resources[i].url))
  {
    assert resources[..i + 1][..i] == resources[..i];
  }

  /** `resource_to_result`: each resource whose item returned, with what it
      returned; a resource listed twice keeps its later result. */
  function ResultMap(resources: seq<Resource>, results: seq<Result<bool, Exception>>): map<Resource, bool>
    requires |results| == |resources|
    decreases |resources|
  {
    if resources == [] then map[]
    else
      var n := |resources| - 1;
      var prior := ResultMap(resources[..n], results[..n]);
      if results[n].Success? then prior[resources[n] := results[n].value] else prior
  }

  /** One more entry of the result map. */
  lemma ResultMapExtend(resources: seq<Resource>, results: seq<Result<bool, Exception>>, i: nat)
    requires |results| == i + 1 <= |resources|
    ensures ResultMap(resources[..i + 1], results)
            == var prior := ResultMap(resources[..i], results[..i]);
               if results[i].Success? then prior[resources[i] := results[i].value] else prior
  {
    assert resources[..i + 1][..i] == resources[..i];
  }

  /** The result map has an entry exactly for the resources whose item
      returned, and for a resource listed once that entry is its item's
      result. */
  lemma {:induction false} ResultMapSpec(resources: seq<Resource>, results: seq<Result<bool, Exception>>)
    requires |results| == |resources|
    ensures forall k :: k in ResultMap(resources, results) <==>
                          exists i :: 0 <= i < |resources| && resources[i] == k && results[i].Success?
    ensures forall i :: 0 <= i < |resources| && results[i].Success? &&
                        (forall j :: 0 <= j < |resources| && j != i ==> resources[j] != resources[i]) ==>
                          ResultMap(resources, results)[resources[i]] == results[i].value
    decreases |resources|
  {
    if resources != [] {
      var n := |resources| - 1;
      ResultMapSpec(resources[..n], results[..n]);
      var m := ResultMap(resources, results);
      var prior := ResultMap(resources[..n], results[..n]);
      forall k ensures k in m <==> exists i :: 0 <= i < |resources| && resources[i] == k && results[i].Success? {
        if k in prior {
          var i :| 0 <= i < n && resources[..n][i] == k && results[..n][i].Success?;
          assert resources[i] == k && results[i].Success?;
        }
        if exists i :: 0 <= i < |resources| && resources[i] == k && results[i].Success? {
          var i :| 0 <= i < |resources| && resources[i] == k && results[i].Success?;
          if i < n {
            assert resources[..n][i] == k && results[..n][i].Success?;
          }
        }
      }
      forall i | 0 <= i < |resources| && results[i].Success? &&
                 (forall j :: 0 <= j < |resources| && j != i ==> resources[j] != resources[i])
        ensures m[resources[i]] == results[i].value
      {
        if i < n {
          assert resources[..n][i] == resources[i] && results[..n][i] == results[i];
          forall j | 0 <= j < n && j != i ensures resources[..n][j] != resources[..n][i] {
            assert resources[..n][j] == resources[j];
          }
        }
      }
    }
  }

  /** A resource is settled on a disk when its arguments are valid and both
      its directory and its target exist. */
  predicate SettledOn(disk: Disk, url: Value, out: Value) {
    && url.PyStr?
    && !out.PyOther?
    && Exists(disk, Head(Target(url.s, out)))
    && Exists(disk, Target(url.s, out))
  }

  /** The two facts about single items that whole passes rely on: the disk
      only grows, and an item that reports success is settled after it. */
  ghost predicate Monotone(step: ItemStep) {
    forall disk, url, out ::
      && Grows(disk, step(disk, url, out).disk)
      && (step(disk, url, out).result == Success(true) ==> SettledOn(step(disk, url, out).disk, url, out))
  }

  /** `_download_item` has both. */
  lemma ItemOfMonotone(respond: string -> Response, overwrite: bool)
    ensures Monotone(ItemOf(respond, overwrite))
  {
    forall disk, url, out
      ensures Grows(disk, ItemOf(respond, overwrite)(disk, url, out).disk)
      ensures ItemOf(respond, overwrite)(disk, url, out).result == Success(true) ==>
                SettledOn(ItemOf(respond, overwrite)(disk, url, out).disk, url, out)
    {
      RaisesBeforeEffects(disk, respond, url, out, overwrite);
      if url.PyStr? && !out.PyOther? {
        ItemSettles(disk, respond, url.s, out, overwrite);
      } else {
        ItemRaises(disk, respond, url, out, overwrite);
      }
    }
  }

  predicate AllSaved(results: seq<Result<bool, Exception>>) {
    forall i :: 0 <= i < |results| ==> results[i] == Success(true)
  }

  /** A pass only grows the disk, and after a pass in which every item
      reported success every resource is settled. */
  lemma {:induction false} PassSettles(step: ItemStep, disk: Disk, resources: seq<Resource>)
    requires Monotone(step)
    ensures var p := RunItems(step, disk, resources);
            && Grows(disk, p.disk)
            && (AllSaved(p.results) ==>
                  forall i :: 0 <= i < |resources| ==> SettledOn(p.disk, resources[i].url, resources[i].out))
    decreases |resources|
  {
    if resources != [] {
      var n := |resources| - 1;
      PassSettles(step, disk, resources[..n]);
      var prior := RunItems(step, disk, resources[..n]);
      forall i | 0 <= i < n ensures resources[..n][i] == resources[i] { }
      SettlesStep(step, disk, prior, resources, RunItems(step, disk, resources));
    }
  }

  /** The step of `PassSettles` from all items but the last to all items. */
  lemma SettlesStep(step: ItemStep, disk: Disk, prior: Pass, resources: seq<Resource>, p: Pass)
    requires Monotone(step)
    requires |resources| > 0 && |prior.results| == |resources| - 1
    requires var last := resources[|resources| - 1];
             var item := step(prior.disk, last.url, last.out);
             p == Pass(prior.results + [item.result], item.disk, prior.fetched + FetchLog(item, last.url))
    requires Grows(disk, prior.disk)
    requires AllSaved(prior.results) ==>
               forall i :: 0 <= i < |resources| - 1 ==> SettledOn(prior.disk, resources[i].url, resources[i].out)
    ensures Grows(disk, p.disk)
    ensures AllSaved(p.results) ==>
              forall i :: 0 <= i < |resources| ==> SettledOn(p.disk, resources[i].url, resources[i].out)
  {
    var n := |resources| - 1;
    var last := resources[n];
    assert Grows(prior.disk, p.disk) && (p.results[n] == Success(true) ==> SettledOn(p.disk, last.url, last.out));
    if AllSaved(p.results) {
      assert AllSaved(prior.results) by {
        forall i | 0 <= i < n ensures prior.results[i] == p.results[i] { }
      }
      forall i | 0 <= i < n ensures SettledOn(p.disk, resources[i].url, resources[i].out) {
        SettledGrows(prior.disk, p.disk, resources[i].url, resources[i].out);
      }
    }
  }

  /** Settledness survives growth. */
  lemma SettledGrows(before: Disk, after: Disk, url: Value, out: Value)
    requires Grows(before, after) && SettledOn(before, url, out)
    ensures SettledOn(after, url, out)
  {
    ExistsGrows(before, after, Head(Target(url.s, out)));
    ExistsGrows(before, after, Target(url.s, out));
  }

  /** A pass in which every item leaves the disk alone, fetches nothing and
      reports success returns all successes and changes nothing. */
  lemma {:induction false} IdlePass(step: ItemStep, disk: Disk, resources: seq<Resource>)
    requires forall i :: 0 <= i < |resources| ==>
               step(disk, resources[i].url, resources[i].out) == Item(Success(true), disk, false)
    ensures RunItems(step, disk, resources) == Pass(Repeat(Success(true), |resources|), disk, [])
    decreases |resources|
  {
    if resources != [] {
      var n := |resources| - 1;
      forall i | 0 <= i < n
        ensures step(disk, resources[..n][i].url, resources[..n][i].out) == Item(Success(true), disk, false)
      {
        assert resources[..n][i] == resources[i];
      }
      IdlePass(step, disk, resources[..n]);
    }
  }

  /** Downloading the same resources twice without overwriting, after a
      first pass in which every item reported success: the second pass
      fetches nothing, changes nothing and reports every item as saved. */
  lemma SecondPassFetchesNothing(disk: Disk, respond: string -> Response, resources: seq<Resource>)
    requires AllSaved(RunItems(ItemOf(respond, false), disk, resources).results)
    ensures var first := RunItems(ItemOf(respond, false), disk, resources);
            RunItems(ItemOf(respond, false), first.disk, resources) == Pass(first.results, first.disk, [])
  {
    var step := ItemOf(respond, false);
    var first := RunItems(step, disk, resources);
    ItemOfMonotone(respond, false);
    PassSettles(step, disk, resources);
    forall i | 0 <= i < |resources|
      ensures step(first.disk, resources[i].url, resources[i].out) == Item(Success(true), first.disk, false)
    {
      SkipExisting(first.disk, respond, resources[i].url.s, resources[i].out);
    }
    IdlePass(step, first.disk, resources);
    assert first.results == Repeat(Success(true), |resources|);
  }

  // ---------------------------------------------------------- the objects

  /** The local disk, changed in place. */
  class FileSystem {
    var files: map<string, Bytes>
    var dirs: set<string>

    constructor (files: map<string, Bytes>, dirs: set<string>)
      ensures this.files == files && this.dirs == dirs
    {
      this.files := files;
      this.dirs := dirs;
    }

    function State(): Disk
      reads this
    {
      Disk(files, dirs)
    }

    predicate PathExists(p: string)
      reads this
    {
      Exists(State(), p)
    }

    /** `os.makedirs(name)`. */
    method MakeDirectories(name: string) returns (r: Result<(), Exception>)
      modifies this
      ensures MakeDirs(old(State()), name).Failure? ==>
                r == Failure(MakeDirs(old(State()), name).error) && State() == old(State())
      ensures MakeDirs(old(State()), name).Success? ==>
                r.Success? && State() == Disk(old(files), MakeDirs(old(State()), name).value)
    {
      var made := MakeDirs(State(), name);
      if made.Failure? {
        return Failure(made.error);
      }
      dirs := made.value;
      return Success(());
    }

    /** `open(path, 'wb').write(body)`; False where it raises. */
    method WriteFile(path: string, body: Bytes) returns (ok: bool)
      modifies this
      ensures ok == CanWrite(old(State()), path)
      ensures State() == if ok then Disk(old(files)[path := body], old(dirs)) else old(State())
    {
      if !CanWrite(State(), path) {
        return false;
      }
      files := files[path := body];
      return true;
    }
  }

  /** `Downloader`: a session, modelled as the function `respond`, the disk,
      and the log of URLs fetched so far. */
  class Downloader {
    const fs: FileSystem
    const respond: string -> Response
    var fetched: seq<string>

    constructor (fs: FileSystem, respond: string -> Response)
      ensures this.fs == fs && this.respond == respond && fetched == []
    {
      this.fs := fs;
      this.respond := respond;
      fetched := [];
    }

    /** `_download_item`. */
    method DownloadItem(url: Value, out: Value, overwrite: bool) returns (r: Result<bool, Exception>)
      modifies this, fs
      ensures var item := DownloadItemSpec(old(fs.State()), respond, url, out, overwrite);
              && r == item.result
              && fs.State() == item.disk
              && fetched == old(fetched) + FetchLog(item, url)
    {
      if !url.PyStr? {
        return Failure(ValueError);
      }
      if out.PyOther? {
        return Failure(ValueError);
      }
      var target := Target(url.s, out);
      var dir := Head(target);
      if !fs.PathExists(dir) {
        var made := fs.MakeDirectories(dir);
        if made.Failure? {
          return Failure(made.error);
        }
      }
      r := SaveTarget(url.s, target, overwrite);
    }

    /** The rest of `_download_item`, once the directory exists. */
    method SaveTarget(url: string, target: string, overwrite: bool) returns (r: Result<bool, Exception>)
      modifies this, fs
      ensures var item := Save(old(fs.State()), respond(url), target, overwrite);
              && r == item.result
              && fs.State() == item.disk
              && fetched == old(fetched) + (if item.fetched then [url] else [])
    {
      if fs.PathExists(target) && !overwrite {
        return Success(true);
      }
      var response := respond(url);
      fetched := fetched + [url];
      if response.FetchRaised? || !StatusOk(response.status) {
        return Success(false);
      }
      var ok := fs.WriteFile(target, response.body);
      return Success(ok);
    }

    /** `download`: every resource in turn; the map of what each returned. */
    method Download(resources: seq<Resource>, overwrite: bool) returns (r: Result<map<Resource, bool>, Exception>)
      modifies this, fs
      ensures resources == [] ==>
                r == Failure(ValueError) && fs.State() == old(fs.State()) && fetched == old(fetched)
      ensures resources != [] ==>
                var pass := RunItems(ItemOf(respond, overwrite), old(fs.State()), resources);
                && r == Success(ResultMap(resources, pass.results))
                && fs.State() == pass.disk
                && fetched == old(fetched) + pass.fetched
    {
      if |resources| == 0 {
        return Failure(ValueError);
      }
      var results: map<Resource, bool> := map[];
      ghost var outcomes: seq<Result<bool, Exception>> := [];
      ghost var step := ItemOf(respond, overwrite);
      for i := 0 to |resources|
        invariant var pass := RunItems(step, old(fs.State()), resources[..i]);
                  && outcomes == pass.results
                  && fs.State() == pass.disk
                  && fetched == old(fetched) + pass.fetched
                  && results == ResultMap(resources[..i], outcomes)
      {
        ghost var prior := RunItems(step, old(fs.State()), resources[..i]);
        var resource := resources[i];
        var item := DownloadItem(resource.url, resource.out, overwrite);
        ghost var log := FetchLog(step(prior.disk, resource.url, resource.out), resource.url);
        assert fetched == old(fetched) + prior.fetched + log;
        assert old(fetched) + prior.fetched + log == old(fetched) + (prior.fetched + log);
        PassExtend(step, old(fs.State()), resources, i);
        ResultMapExtend(resources, outcomes + [item], i);
        assert (outcomes + [item])[..i] == outcomes;
        outcomes := outcomes + [item];
        if item.Success? {
          results := results[resource := item.value];
        }
      }
      assert resources[..|resources|] == resources;
      return Success(results);
    }
  }
}
