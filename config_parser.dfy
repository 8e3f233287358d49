/**
 * The run configuration of json-schema-ld (src/lib/ConfigParser.ts): the
 * `Config` class, whose constructor validates the namespace prefix and URI,
 * applies defaults, injects the project binding into the shared RDFS and
 * SHACL prefix tables and resolves the list of JSON Schema source files.
 *
 * The filesystem and Node's `path` module are reached only through a `Host`
 * value: `resolve` and `join` stand for `path.resolve` and `path.join`,
 * `stat` for what `fs.statSync` (and `fs.readdirSync` on a directory) finds
 * at a path.
 */
module ConfigParser {
  import opened Wrappers
  import opened Validators

  /**
   * One field of the CLI argument object: the key may be absent, present
   * with the value `undefined`, or present with a string. The source tells
   * the first two apart (`'out' in cliArgs`).
   */
  datatype Arg = Absent | Undefined | Given(value: string)

  /** The fields of `CLIArguments` that the constructor reads. */
  datatype CliArgs = CliArgs(prefix: Arg, uri: Arg, source: Arg, out: Arg, format: Arg)

  /** The errors the constructor throws. */
  datatype ConfigError =
    | PrefixRequired                 // `!cliArgs.prefix`
    | InvalidPrefix(prefix: string)  // `isValidPrefix` failed
    | InvalidUri(uri: Arg)           // `isValidHttpURI` failed
    | SourceNotString                // `path.resolve` rejects a source that is not a string

  /** The project namespace once validated. */
  datatype Namespace = Namespace(prefix: string, uri: string)

  /** What `fs.statSync` finds at a path: a file, a directory with its `readdirSync` listing, something else, or nothing (statSync throws). */
  datatype Node = File | Dir(names: seq<string>) | Other | Missing

  /** The host environment: Node's path functions and the filesystem. */
  datatype Host = Host(resolve: string -> string, join: (string, string) -> string, stat: string -> Node)

  /** JavaScript truthiness of an argument: present, defined and not the empty string. */
  predicate Truthy(a: Arg) {
    a.Given? && a.value != ""
  }

  /** The text a template literal gives an argument: `undefined` when it has no value. */
  function Show(a: Arg): string {
    if a.Given? then a.value else "undefined"
  }

  /** The message of each error the constructor itself throws. */
  function Message(e: ConfigError): string
    requires !e.SourceNotString?
  {
    match e
    case PrefixRequired => "Prefix argument requried"
    case InvalidPrefix(p) => "Invalid namespace prefix " + p
    case InvalidUri(u) => "Invalid namespace URI " + Show(u)
  }

  /** A message tells which check failed, and for a rejected prefix which prefix it was. */
  lemma {:induction false} MessageIdentifiesCheck(e1: ConfigError, e2: ConfigError)
    requires !e1.SourceNotString? && !e2.SourceNotString?
    requires Message(e1) == Message(e2)
    ensures e1.PrefixRequired? == e2.PrefixRequired?
    ensures e1.InvalidPrefix? == e2.InvalidPrefix?
    ensures e1.InvalidPrefix? ==> e1 == e2
  {
    var m := Message(e1);
    if e1.PrefixRequired? || e2.PrefixRequired? {
      assert m[0] == 'P' <==> e1.PrefixRequired?;
      assert m[0] == 'P' <==> e2.PrefixRequired?;
    } else {
      assert m[18] == 'p' <==> e1.InvalidPrefix?;
      assert m[18] == 'p' <==> e2.InvalidPrefix?;
      if e1.InvalidPrefix? {
        assert e1.prefix == m[25..] == e2.prefix;
      }
    }
  }

  /**
   * The three checks of the constructor, in their order: a prefix must be
   * given, then it must be valid, then the URI must be valid.
   */
  function CheckNamespace(args: CliArgs): (r: Result<Namespace, ConfigError>)
    ensures r.Success? <==>
              args.prefix.Given? && IsValidPrefix(args.prefix.value) &&
              args.uri.Given? && IsValidHttpUri(args.uri.value)
    ensures r.Success? ==>
              args.prefix == Given(r.value.prefix) && args.uri == Given(r.value.uri)
    ensures !Truthy(args.prefix) ==> r == Failure(PrefixRequired)
    ensures (Truthy(args.prefix) && !IsValidPrefix(args.prefix.value)) ==>
              r == Failure(InvalidPrefix(args.prefix.value))
    ensures (Truthy(args.prefix) && IsValidPrefix(args.prefix.value) &&
             !(args.uri.Given? && IsValidHttpUri(args.uri.value))) ==>
              r == Failure(InvalidUri(args.uri))
    ensures r.Failure? && r.error.InvalidPrefix? ==>
              args.prefix == Given(r.error.prefix) && r.error.prefix != ""
    ensures r.Failure? && r.error.InvalidUri? ==>
              args.prefix.Given? && IsValidPrefix(args.prefix.value) && r.error.uri == args.uri
    ensures r.Failure? ==> !r.error.SourceNotString?
  {
    if !Truthy(args.prefix) then
      Failure(PrefixRequired)
    else if !IsValidPrefix(args.prefix.value) then
      Failure(InvalidPrefix(args.prefix.value))
    else if !(args.uri.Given? && IsValidHttpUri(args.uri.value)) then
      Failure(InvalidUri(args.uri))
    else
      Success(Namespace(args.prefix.value, args.uri.value))
  }

  /** `format`: "Turtle" when `cliArgs.format === undefined`, the given value otherwise. */
  function FormatOf(args: CliArgs): string {
    if args.format.Given? then args.format.value else "Turtle"
  }

  /** `out`: the given value when the key is present (even `undefined`), "out" otherwise. */
  function OutOf(args: CliArgs): Option<string> {
    match args.out
    case Absent => Some("out")
    case Undefined => None
    case Given(o) => Some(o)
  }

  /** A directory entry that the scan keeps: it ends in ".json" and not in "config.json". */
  predicate IsSchemaFileName(name: string) {
    EndsWith(name, ".json") && !EndsWith(name, "config.json")
  }

  /** The child `name` of `dir` is a file the scan keeps. */
  predicate Eligible(host: Host, dir: string, name: string) {
    host.stat(host.join(dir, name)).File? && IsSchemaFileName(name)
  }

  /** One step of the `forEach` over a directory listing. */
  function Visit(host: Host, dir: string, found: seq<string>, name: string): Option<seq<string>> {
    var child := host.join(dir, name);
    match host.stat(child)
    case Missing => None
    case Dir(_) => Some(found)
    case Other => Some(found)
    case File => if IsSchemaFileName(name) then Some(found + [child]) else Some(found)
  }

  /** The `forEach` over `names`, left to right; a child that cannot be stat'ed stops it. */
  function Scan(host: Host, dir: string, names: seq<string>): Option<seq<string>>
    decreases |names|
  {
    if names == [] then Some([])
    else match Scan(host, dir, names[..|names| - 1])
      case None => None
      case Some(found) => Visit(host, dir, found, names[|names| - 1])
  }

  /**
   * `jsc_source_files(source)`: the resolved file itself, or the kept files
   * of the resolved directory; `None` (the method's `undefined`) when the
   * path is missing, is neither a file nor a directory, has a child that
   * cannot be stat'ed, or yields no file at all.
   */
  function SourceFiles(host: Host, source: string): (r: Option<seq<string>>)
    ensures r.Some? ==> |r.value| > 0
  {
    var dir := host.resolve(source);
    match host.stat(dir)
    case Missing => None
    case Other => None
    case File => Some([dir])
    case Dir(names) =>
      match Scan(host, dir, names)
      case None => None
      case Some(found) => if found == [] then None else Some(found)
  }

  /** Once the scan has stopped, it stays stopped. */
  lemma {:induction false} ScanStopped(host: Host, dir: string, names: seq<string>, i: int)
    requires 0 <= i <= |names| && Scan(host, dir, names[..i]) == None
    ensures Scan(host, dir, names) == None
    decreases |names| - i
  {
    if i < |names| {
      assert names[..i + 1][..i] == names[..i];
      ScanStopped(host, dir, names, i + 1);
    } else {
      assert names[..i] == names;
    }
  }

  /** The scan yields a list exactly when every child can be stat'ed. */
  lemma {:induction false} ScanDefinedIff(host: Host, dir: string, names: seq<string>)
    ensures Scan(host, dir, names).Some? <==>
              forall k :: 0 <= k < |names| ==> !host.stat(host.join(dir, names[k])).Missing?
    decreases |names|
  {
    if names != [] {
      var init := names[..|names| - 1];
      ScanDefinedIff(host, dir, init);
      assert forall k :: 0 <= k < |init| ==> init[k] == names[k];
    }
  }

  /** Scanning a listing in two parts gives the two results one after the other: the order of the listing is kept. */
  lemma {:induction false} ScanAppend(host: Host, dir: string, a: seq<string>, b: seq<string>)
    requires Scan(host, dir, a).Some? && Scan(host, dir, b).Some?
    ensures Scan(host, dir, a + b) == Some(Scan(host, dir, a).value + Scan(host, dir, b).value)
    decreases |b|
  {
    if b == [] {
      assert a + b == a;
      assert Scan(host, dir, a).value + [] == Scan(host, dir, a).value;
    } else {
      var init := b[..|b| - 1];
      var last := b[|b| - 1];
      assert (a + b)[..|a + b| - 1] == a + init;
      assert (a + b)[|a + b| - 1] == last;
      assert Scan(host, dir, init).Some?;
      ScanAppend(host, dir, a, init);
      var front, rest := Scan(host, dir, a).value, Scan(host, dir, init).value;
      var child := host.join(dir, last);
      if host.stat(child).File? && IsSchemaFileName(last) {
        assert front + rest + [child] == front + (rest + [child]);
      }
    }
  }

  /**
   * When the scan yields a list, a path is in it exactly when it is the join
   * of the directory with a listed name that is a file ending in ".json" but
   * not in "config.json": subdirectories, other entries and other files never
   * appear.
   */
  lemma {:induction false} ScanMembers(host: Host, dir: string, names: seq<string>, x: string)
    requires Scan(host, dir, names).Some?
    ensures x in Scan(host, dir, names).value <==>
              exists k :: 0 <= k < |names| && Eligible(host, dir, names[k]) && x == host.join(dir, names[k])
    decreases |names|
  {
    if names != [] {
      var init := names[..|names| - 1];
      assert Scan(host, dir, init).Some?;
      ScanMembers(host, dir, init, x);
      assert forall k :: 0 <= k < |init| ==> init[k] == names[k];
      if exists k :: 0 <= k < |names| && Eligible(host, dir, names[k]) && x == host.join(dir, names[k]) {
        var k :| 0 <= k < |names| && Eligible(host, dir, names[k]) && x == host.join(dir, names[k]);
        if k < |init| {
          assert init[k] == names[k];
        }
      }
    }
  }

  /** A file source gives exactly the one resolved path. */
  lemma FileSource(host: Host, source: string)
    requires host.stat(host.resolve(source)).File?
    ensures SourceFiles(host, source) == Some([host.resolve(source)])
  {
  }

  /** A missing source, or one that is neither file nor directory, gives no list. */
  lemma NoSuchSource(host: Host, source: string)
    requires host.stat(host.resolve(source)).Missing? || host.stat(host.resolve(source)).Other?
    ensures SourceFiles(host, source) == None
  {
  }

  /** An empty directory gives no list. */
  lemma EmptyDirectory(host: Host, source: string)
    requires host.stat(host.resolve(source)) == Dir([])
    ensures SourceFiles(host, source) == None
  {
  }

  /** A directory none of whose children is a kept file gives no list. */
  lemma {:induction false} NoEligibleFile(host: Host, source: string, names: seq<string>)
    requires host.stat(host.resolve(source)) == Dir(names)
    requires forall k :: 0 <= k < |names| ==> !Eligible(host, host.resolve(source), names[k])
    ensures SourceFiles(host, source) == None
  {
    var dir := host.resolve(source);
    match Scan(host, dir, names)
    case None =>
    case Some(found) =>
      if found != [] {
        ScanMembers(host, dir, names, found[0]);
      }
  }

  /**
   * A directory listing "a.json", "b.json", "b.config.json", "notes.txt",
   * all files, gives exactly the first two, in that order.
   */
  lemma {:induction false} MixedDirectory(host: Host, source: string)
    requires host.stat(host.resolve(source)) == Dir(["a.json", "b.json", "b.config.json", "notes.txt"])
    requires forall name :: host.stat(host.join(host.resolve(source), name)) == File
    ensures SourceFiles(host, source) ==
              Some([host.join(host.resolve(source), "a.json"), host.join(host.resolve(source), "b.json")])
  {
    var dir := host.resolve(source);
    var names := ["a.json", "b.json", "b.config.json", "notes.txt"];
    var a, b := host.join(dir, "a.json"), host.join(dir, "b.json");
    assert IsSchemaFileName("a.json") && IsSchemaFileName("b.json");
    assert "b.config.json"[2..] == "config.json";
    assert !IsSchemaFileName("b.config.json");
    assert "notes.txt"[4..] == "s.txt";
    assert !IsSchemaFileName("notes.txt");
    assert host.stat(a) == File && host.stat(b) == File;
    assert names[..1][..0] == [] && names[..1][0] == "a.json";
    assert Visit(host, dir, [], "a.json") == Some([] + [a]) && [] + [a] == [a];
    assert Scan(host, dir, names[..1]) == Some([a]);
    assert names[..2][..1] == names[..1] && names[..2][1] == "b.json";
    assert Visit(host, dir, [a], "b.json") == Some([a] + [b]) && [a] + [b] == [a, b];
    assert Scan(host, dir, names[..2]) == Some([a, b]);
    assert names[..3][..2] == names[..2];
    assert Scan(host, dir, names[..3]) == Some([a, b]);
    assert names[..4][..3] == names[..3] && names[..4] == names;
    assert Scan(host, dir, names) == Some([a, b]);
  }

  /** A table of namespace bindings (`RDFS_PREFIX` or `SHACL_PREFIX`), shared by reference. */
  class PrefixTable {
    var prefixes: map<string, string>

    constructor (initial: map<string, string>)
      ensures prefixes == initial
    {
      prefixes := initial;
    }

    /** `table['prefixes'][key] = value`: binds `key`, leaves every other binding as it was. */
    method Bind(key: string, value: string)
      modifies this
      ensures prefixes == old(prefixes)[key := value]
      ensures key in prefixes && prefixes[key] == value
      ensures forall k :: k in old(prefixes) && k != key ==> k in prefixes && prefixes[k] == old(prefixes)[k]
    {
      prefixes := prefixes[key := value];
    }
  }

  /**
   * JavaScript's `obj[key] = value` on an ordinary object whose prototype is
   * `Object.prototype`: the key "__proto__" reaches the inherited accessor,
   * which ignores a string value, so nothing is bound.
   */
  function AssignProperty(obj: map<string, string>, key: string, value: string): map<string, string> {
    if key == "__proto__" then obj else obj[key := value]
  }

  /** "__proto__" passes `isValidPrefix`, yet assigning it into a prefix table binds nothing. */
  lemma {:induction false} ProtoPrefixNotBound(obj: map<string, string>, uri: string)
    requires "__proto__" !in obj
    ensures IsValidPrefix("__proto__")
    ensures AssignProperty(obj, "__proto__", uri) == obj
    ensures "__proto__" !in AssignProperty(obj, "__proto__", uri)
  {
    IsValidPrefixIff("__proto__");
  }

  /** A validated run configuration. */
  class Config {
    const cliArgs: CliArgs
    /** `_source`: the resolved source files, `None` where `jsc_source_files` returned `undefined`. */
    const source: Option<seq<string>>
    /** Output directory; `None` stands for `undefined`. */
    var out: Option<string>
    const prefix: string
    const uri: string
    var auto: bool
    var rdfsPrefix: PrefixTable
    var shaclPrefix: PrefixTable
    var format: string

    /** Allocation and field assignment only; `Create` is the source's constructor. */
    constructor (cliArgs: CliArgs, format: string, prefix: string, uri: string, out: Option<string>,
                 rdfsPrefix: PrefixTable, shaclPrefix: PrefixTable, source: Option<seq<string>>, auto: bool)
      ensures this.cliArgs == cliArgs && this.format == format && this.prefix == prefix && this.uri == uri
      ensures this.out == out && this.rdfsPrefix == rdfsPrefix && this.shaclPrefix == shaclPrefix
      ensures this.source == source && this.auto == auto
    {
      this.cliArgs := cliArgs;
      this.format := format;
      this.prefix := prefix;
      this.uri := uri;
      this.out := out;
      this.rdfsPrefix := rdfsPrefix;
      this.shaclPrefix := shaclPrefix;
      this.source := source;
      this.auto := auto;
    }

    /** What every successfully constructed configuration satisfies. */
    ghost predicate Valid()
      reads this
    {
      IsValidPrefix(prefix) && IsValidHttpUri(uri) &&
      cliArgs.prefix == Given(prefix) && cliArgs.uri == Given(uri) &&
      (source.Some? ==> |source.value| > 0)
    }

    /** `jsc_source_files(source)`: builds the list entry by entry, as the `forEach` does. */
    static method JscSourceFiles(host: Host, source: string) returns (r: Option<seq<string>>)
      ensures r == SourceFiles(host, source)
    {
      var sourceList: seq<string> := [];
      var sourceRes := host.resolve(source);
      var st := host.stat(sourceRes);
      if st.Missing? {
        return None;
      }
      if st.Dir? {
        var names := st.names;
        var i := 0;
        while i < |names|
          invariant 0 <= i <= |names|
          invariant Scan(host, sourceRes, names[..i]) == Some(sourceList)
        {
          var file := names[i];
          var child := host.join(sourceRes, file);
          var childStat := host.stat(child);
          assert names[..i + 1][..i] == names[..i];
          if childStat.Missing? {
            ScanStopped(host, sourceRes, names, i + 1);
            return None;
          }
          if childStat.Dir? {
            // logged and skipped: directories are not recursed
          } else if childStat.File? {
            if EndsWith(file, ".json") {
              if !EndsWith(file, "config.json") {
                sourceList := sourceList + [child];
              }
            }
          }
          i := i + 1;
        }
        assert names[..i] == names;
        assert Scan(host, sourceRes, names) == Some(sourceList);
        assert st == Dir(names);
      }
      if st.File? {
        sourceList := sourceList + [sourceRes];
        assert sourceList == [sourceRes];
      }
      if |sourceList| == 0 {
        return None;
      }
      return Some(sourceList);
    }

    /**
     * `new Config(cliArgs)`: validation in order, defaults, the project
     * binding written into the shared tables, the source files, `auto`.
     * A thrown error is a `Failure`; the tables are touched only once all
     * three checks have passed.
     */
    static method Create(args: CliArgs, host: Host, rdfs: PrefixTable, shacl: PrefixTable)
      returns (r: Result<Config, ConfigError>)
      modifies rdfs, shacl
      ensures CheckNamespace(args).Failure? ==>
                r == Failure(CheckNamespace(args).error) &&
                rdfs.prefixes == old(rdfs.prefixes) && shacl.prefixes == old(shacl.prefixes)
      ensures CheckNamespace(args).Success? ==>
                var ns := CheckNamespace(args).value;
                rdfs.prefixes == old(rdfs.prefixes)[ns.prefix := ns.uri] &&
                shacl.prefixes == old(shacl.prefixes)[ns.prefix := ns.uri]
      ensures CheckNamespace(args).Success? && !args.source.Given? ==> r == Failure(SourceNotString)
      ensures CheckNamespace(args).Success? && args.source.Given? ==> r.Success?
      ensures r.Success? ==>
                var c := r.value;
                fresh(c) && c.Valid() && c.cliArgs == args &&
                Given(c.prefix) == args.prefix && Given(c.uri) == args.uri &&
                c.format == FormatOf(args) && c.out == OutOf(args) && c.auto &&
                c.rdfsPrefix == rdfs && c.shaclPrefix == shacl &&
                c.source == SourceFiles(host, args.source.value)
    {
      var format := if args.format.Given? then args.format.value else "Turtle";
      if !Truthy(args.prefix) {
        return Failure(PrefixRequired);
      }
      var prefix: string;
      if IsValidPrefix(args.prefix.value) {
        prefix := args.prefix.value;
      } else {
        return Failure(InvalidPrefix(args.prefix.value));
      }
      var uri: string;
      if args.uri.Given? && IsValidHttpUri(args.uri.value) {
        uri := args.uri.value;
      } else {
        return Failure(InvalidUri(args.uri));
      }
      var out := match args.out
        case Absent => Some("out")
        case Undefined => None
        case Given(o) => Some(o);
      rdfs.Bind(prefix, uri);
      shacl.Bind(prefix, uri);
      if !args.source.Given? {
        return Failure(SourceNotString);
      }
      var source := JscSourceFiles(host, args.source.value);
      var auto := true;
      var c := new Config(args, format, prefix, uri, out, rdfs, shacl, source, auto);
      return Success(c);
    }
  }

  /**
   * Two successful constructions over the same tables: both configurations
   * hold the same table objects, and the first binding survives the second
   * when the prefixes differ.
   */
  method ConstructTwice(args1: CliArgs, args2: CliArgs, host: Host, rdfs: PrefixTable, shacl: PrefixTable)
    returns (c1: Config, c2: Config)
    requires CheckNamespace(args1).Success? && args1.source.Given?
    requires CheckNamespace(args2).Success? && args2.source.Given?
    requires args1.prefix != args2.prefix
    modifies rdfs, shacl
    ensures Given(c1.prefix) == args1.prefix && Given(c1.uri) == args1.uri
    ensures Given(c2.prefix) == args2.prefix && Given(c2.uri) == args2.uri
    ensures c1.rdfsPrefix == c2.rdfsPrefix == rdfs && c1.shaclPrefix == c2.shaclPrefix == shacl
    ensures c1.prefix in rdfs.prefixes && rdfs.prefixes[c1.prefix] == c1.uri
    ensures c2.prefix in rdfs.prefixes && rdfs.prefixes[c2.prefix] == c2.uri
    ensures c1.prefix in shacl.prefixes && shacl.prefixes[c1.prefix] == c1.uri
    ensures c2.prefix in shacl.prefixes && shacl.prefixes[c2.prefix] == c2.uri
  {
    var r1 := Config.Create(args1, host, rdfs, shacl);
    var r2 := Config.Create(args2, host, rdfs, shacl);
    c1, c2 := r1.value, r2.value;
  }
}
