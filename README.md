# json-schema-ld run configuration, in Dafny

This project models the run-configuration component of json-schema-ld
(`src/lib/ConfigParser.ts`): the component that turns CLI arguments into a
validated `Config`. It covers:

- the two namespace validators, `isValidPrefix` (the regular expression
  `^\w+$`) and `isValidHttpURI`;
- the `Config` constructor: its three checks in their fixed order,
  the `format`/`out` defaults and `auto`, and the injection of the project
  `prefix → uri` binding into the shared RDFS and SHACL prefix tables;
- `jsc_source_files`: the rule that selects the JSON Schema files from a
  file or directory source.

Files:

- `wrappers.dfy` holds `Option` (for `undefined`) and `Result` (for a thrown error).
- `validators.dfy` (module `Validators`) holds the validators and the
  `startsWith`/`endsWith` helpers.
- `config_parser.dfy` (module `ConfigParser`) holds the rest.

The TypeScript constructor can throw, and a Dafny constructor cannot fail.
So `Config.Create` models `new Config(cliArgs)` step by step and returns a
`Result`. The Dafny constructor only allocates the object and assigns its fields.

The prefix tables `RDFS_PREFIX` and `SHACL_PREFIX` are module-level objects
that the constructor mutates in place. They are `PrefixTable` objects here,
passed by reference. `Config.rdfsPrefix` and `Config.shaclPrefix` are those
same objects, so bindings written by earlier constructions persist
(`ConstructTwice`).

Node's `path.resolve`, `path.join`, `fs.statSync` and `fs.readdirSync` are
reached through a `Host` value. Its function fields `resolve`, `join` and
`stat` are arbitrary. `stat` returns a `Node`: `File`, `Dir` (with its
listing), `Other`, or `Missing` (statSync throws).

A CLI argument is an `Arg`: `Absent`, `Undefined` (key present, value
`undefined`) or `Given(s)`. The source distinguishes the first two for `out`
(`'out' in cliArgs`) but not for `format` (`=== undefined`).

Behaviour of the code worth noting, all of it modelled:

- A missing source, a source that is neither file nor directory, or a directory
  with no eligible file is not fatal. `jsc_source_files` catches its own error
  and returns `undefined`, so construction still succeeds, with `source == None`.
- The file list is not deduplicated.
- `out` is `undefined`, not `"out"`, when the key is present with the value `undefined`.
- A file source is returned whatever its name (it need not end in `.json`).
- A directory child that `statSync` cannot stat (a dangling link, say) throws
  inside the `forEach`. The whole result is then `undefined`.
- A `source` that is not a string makes `path.resolve` throw. This happens
  outside the `try`, after the prefix tables were updated, so the
  construction fails with the tables already changed (`SourceNotString`).

## Model

| member | source | states |
|---|---|---|
| Validators.IsValidPrefixIff | src/lib/ConfigParser.ts:136-139 | `^\w+$` matches exactly the non-empty strings whose every character is in `[A-Za-z0-9_]` |
| Validators.NonWordCharRejected | src/lib/ConfigParser.ts:136-139 | a string holding any character other than a letter, digit or `_` is rejected, and so is the empty string |
| Validators.HttpsStartsWithHttp | src/lib/ConfigParser.ts:148 | every string starting with "https" starts with "http" |
| Validators.IsValidHttpUriIff | src/lib/ConfigParser.ts:147-149 | `isValidHttpURI` accepts exactly the strings starting with "http"; the "https" test and the non-empty test are redundant; "" is rejected |
| Validators.ConfigJsonEndsWithJson | src/lib/ConfigParser.ts:104-105 | a name ending in "config.json" ends in ".json", so the exclusion only narrows the ".json" files |
| ConfigParser.CheckNamespace | src/lib/ConfigParser.ts:58-68 | success iff the prefix is given and valid and the URI is given and valid; a missing or empty prefix fails with PrefixRequired whatever the URI; a present but invalid prefix fails with InvalidPrefix naming it, whatever the URI; a valid prefix with a missing or invalid URI fails with InvalidUri; an invalid prefix is reported only when present; the URI is reported only after the prefix passed; on success the namespace is exactly the two arguments |
| ConfigParser.MessageIdentifiesCheck | src/lib/ConfigParser.ts:58-68 | the three thrown messages tell which check failed, and a rejected prefix's message names that prefix |
| ConfigParser.SourceFiles | src/lib/ConfigParser.ts:114-121 | a list is returned only when it is non-empty |
| ConfigParser.ScanStopped | src/lib/ConfigParser.ts:98-127 | once a directory child cannot be stat'ed, the thrown error ends the scan and no list results |
| ConfigParser.ScanDefinedIff | src/lib/ConfigParser.ts:100-112 | the directory scan yields a list exactly when every listed child can be stat'ed |
| ConfigParser.ScanAppend | src/lib/ConfigParser.ts:100-112 | scanning a listing in two parts gives the two results concatenated: listing order is preserved |
| ConfigParser.ScanMembers | src/lib/ConfigParser.ts:100-112 | a path is in the scan's result iff it is `join(dir, name)` for a listed name that is a file ending in ".json" and not in "config.json"; subdirectories, other entries and other files never appear |
| ConfigParser.FileSource | src/lib/ConfigParser.ts:114-116 | a file source yields exactly the one-element list of its resolved path |
| ConfigParser.NoSuchSource | src/lib/ConfigParser.ts:99-127 | a missing source, or one that is neither file nor directory, yields no list |
| ConfigParser.NoEligibleFile | src/lib/ConfigParser.ts:99-121 | a directory none of whose children is a file ending in ".json" and not in "config.json" yields no list |
| ConfigParser.EmptyDirectory | src/lib/ConfigParser.ts:117-118 | an empty directory yields no list |
| ConfigParser.MixedDirectory | src/lib/ConfigParser.ts:99-121 | a directory of files a.json, b.json, b.config.json, notes.txt yields exactly the joins of a.json and b.json, in that order |
| ConfigParser.PrefixTable.Bind | src/lib/ConfigParser.ts:71 | the key is bound to the value and every other binding is unchanged |
| ConfigParser.ProtoPrefixNotBound | src/lib/ConfigParser.ts:71-74 | "__proto__" passes the prefix validator, yet a JavaScript property assignment of it into a plain object table binds nothing |
| ConfigParser.Config.JscSourceFiles | src/lib/ConfigParser.ts:95-128 | the entry-by-entry loop returns exactly `SourceFiles`: the resolved file, or the kept directory children in listing order, or undefined |
| ConfigParser.Config.Create | src/lib/ConfigParser.ts:54-80 | a failed check throws its error with both tables untouched; after the checks both tables bind prefix to uri with every other binding kept; a non-string source then throws; otherwise a fresh valid Config whose prefix and uri are the arguments, format defaults to "Turtle", out to "out" only when the key is absent, auto is true, the tables are the shared objects themselves, and source is `SourceFiles` |
| ConfigParser.ConstructTwice | src/lib/ConfigParser.ts:70-75 | two constructions over the same tables return configurations whose prefix and uri are their own arguments, share those table objects, and both bindings are present afterwards when the prefixes differ |

## Left out

- Logging (`getLogger`, `logger.info`, `logger.error`) has no effect on results and is not modelled.
- The real filesystem and `path` normalisation are replaced by the arbitrary `Host` functions.
- `Host.stat` is a function, so the repeated `statSync` calls on one path (lines 99 and 114; lines 101, 103 and 110) always agree. A filesystem that changes between those calls is not modelled.
- A directory that `readdirSync` cannot list is not modelled. Such a directory would throw inside the `try` and give `undefined`.
- Non-string values in `CLIArguments` are not modelled. JSON configuration could supply such values, for example a numeric prefix, which `!` and `RegExp.test` coerce. Every given argument is a string here.
- `format` is any string. The `N3FormatTypes` union is not part of this model.
- The unused constructor parameter `prefix` (default `JSC_LD_PREFIX`) is not modelled.
- The contents of `RDFS_PREFIX` and `SHACL_PREFIX` are not part of this model. Tables start from an arbitrary map.
- `validate_path` (`src/lib/ConfigParser.ts:151-158`) only wraps `fs.statSync` and is not modelled.
- The CLI script `src/lib/JSONSchemaParser.ts` is not modelled. It does argument parsing, usage text and an unfiltered listing, and it imports a `ConfigParser` export that does not exist.
- The JSON-Schema-to-RDFS/SHACL mapper (`JSCLD`), serialisation and materialisation are not part of this model.
- The text of the `TypeError` that `path.resolve` throws for a non-string source is Node's own and is not modelled. `Message` gives the text only for the three errors the constructor throws itself.
- ConfigParser.Config.Create: writes the binding with `PrefixTable.Bind`, a map update. It therefore does not model the one prefix, "__proto__", for which the JavaScript assignment binds nothing (see Findings).

## Findings

| source | as written | input that shows it | evidently intended | confidence | as-written member | corrected member |
|---|---|---|---|---|---|---|
| src/lib/ConfigParser.ts:71-74 | `table['prefixes'][this.prefix] = this.uri` on a plain object | prefix `__proto__` (valid for `^\w+$`) with any URI: the assignment reaches the inherited `__proto__` setter, which ignores a string, so the project prefix is never bound | every valid prefix is bound to the URI, other bindings unchanged | medium: depends on the tables being ordinary object literals, which are not part of this model; not executed | ConfigParser.ProtoPrefixNotBound | ConfigParser.PrefixTable.Bind |
