# React Native CLI configuration lookup, in Dafny

This project models how the React Native command-line tool finds and builds
its bundler configuration (`local-cli/util/Config.js`):

- **Ancestor search** (`findParentDirectory`, `findConfigPath`). Starting
  from a directory, it looks for `rn-cli.config.js` in that directory and
  then in each ancestor. The nearest one wins.
- **Root expansion** (`resolveSymlinksForRoots`). A list of project roots is
  extended by the symlinked module directories found under each root.
- **Default project root** (`getProjectPath` and the default
  `getProjectRoots`). The tool picks a root from its own install location,
  unless `REACT_NATIVE_APP_ROOT` names one.
- **Defaults and entry points** (`Config.DEFAULTS`, `loadFile`, `find`,
  `findWithPath` and `findOptional`). The file's exported object is
  shallow-merged over the defaults.

The model has no filesystem and no module loader. A path is the sequence of
its segments below `/` (`Paths.Path`). The filesystem is the set of existing
file paths. Loading a file is a function from its path to the exported
object, or to the error that loading throws. Both are fields of
`Config.Host`, together with the environment variable, `__dirname` and the
foreign collaborators. The string steps of the search are written out:
`String.prototype.split` is `Paths.Split` and `Array.prototype.join` is
`Paths.Join`. So the case where `"".split("/")` yields `[""]` comes straight
from the model: the bare root is tested only when the search starts at the
root. The install-location patterns of `getProjectPath` are modelled exactly
by `Roots.MatchesAtEnd`. These are unanchored regular expressions that accept
either separator.

Three properties of the code are worth stating on their own:

- Root expansion is not interleaved. All original roots come first, then
  each root's discoveries in root order (`Roots.ResolveSymlinksShape`).
- The search tests `/` only when it starts at `/`.
  `ConfigPath.FindParentDirectoryIsAscent` relates it to the plain
  one-level-at-a-time ascent `ConfigPath.Ascend`, which does test `/`.
- The CocoaPods pattern ends in `packager`. This file's own directory ends
  in `local-cli/util`, so the pattern cannot match it. In a CocoaPods
  install (`.../Pods/React/local-cli/util`) the code takes the two-level
  branch, and the project path lands at `.../Pods/React`
  (`Roots.CocoaPodsInstallIsCheckout`). The model keeps the code's
  behaviour.

Modules: `Wrappers` (Option, Result), `Paths` (segments, split, join),
`ConfigPath` (the search), `Roots` (root expansion and the default project
root), `Config` (defaults, merge, entry points), `Scenarios` (worked cases
for `/home/u/app/src`).

## Model

| member | source | states |
|---|---|---|
| Paths.Split | local-cli/util/Config.js:264 | Splitting gives one piece more than there are separators, and no piece holds a separator. |
| Paths.Join | local-cli/util/Config.js:258 | `Array.prototype.join` with the separator. Its meaning is given by the round trips `JoinSplit` and `SplitJoin`. |
| Paths.JoinSplit | local-cli/util/Config.js:258-264 | Joining the pieces of a split gives back the original string. |
| Paths.SplitJoin | local-cli/util/Config.js:258-264 | Splitting the join of non-empty, separator-free segments gives back the segments. |
| Paths.SegmentsAfterRoot | local-cli/util/Config.js:252-264 | For a normalised path, the text after the root splits into the path's own segments. The root itself gives the one empty piece `[""]`. |
| Paths.Clean | local-cli/util/Config.js:258 | The directory that `path.join` names has no empty segment and is no longer than the parts it came from. `CleanSingle` and `CleanAppend` give its exact value. |
| Paths.CleanNoEmpty | local-cli/util/Config.js:258 | Parts with no empty segment name exactly themselves. |
| Paths.CleanSingle | local-cli/util/Config.js:258 | One segment names itself, and an empty one names nothing. |
| Paths.CleanAppend | local-cli/util/Config.js:258 | The clean form of two lists put together is their clean forms put together. With `CleanSingle`, `Clean` keeps exactly the non-empty parts, in order. |
| Paths.Climb | local-cli/util/Config.js:163-168 | Going up `n` levels gives a prefix of the path that is `n` segments shorter. At the root it stops. |
| Paths.Dirname | local-cli/util/Config.js:226 | `path.dirname`: drop the last segment. `ConfigPath.FindConfigPath` states that the config path's dirname is the found directory. |
| ConfigPath.TestDir | local-cli/util/Config.js:253-262 | A result holds the file and is no deeper than the parts tested. |
| ConfigPath.HasFile | local-cli/util/Config.js:260 | `fs.existsSync(path.join(fullPath, filename))`: the directory followed by the file name is an existing path. `TestDir` and `FindParentDirectoryNearest` state what the search concludes from it. |
| ConfigPath.TestDirDeepest | local-cli/util/Config.js:253-262 | Over non-empty segments, the result is the longest prefix whose directory holds the file. There is no result exactly when no prefix of length 1 or more holds it. |
| ConfigPath.FindParentDirectory | local-cli/util/Config.js:251-265 | `findParentDirectory`: `testDir` applied to the split of the text after the root. Its properties are stated by `FindParentDirectoryNearest`, `RootOnlyFromRoot` and `FindParentDirectoryIsAscent`. |
| ConfigPath.FindParentDirectoryNearest | local-cli/util/Config.js:249-265 | The nearest ancestor wins. A result is the start directory or one of its ancestors, holds the file, and no deeper tested directory holds it. There is no result exactly when no tested directory holds the file. |
| ConfigPath.RootOnlyFromRoot | local-cli/util/Config.js:253-264 | The bare root is the result exactly when the search starts at the root and the root holds the file. |
| ConfigPath.Ascend | local-cli/util/Config.js:249-250 | The reference search that climbs one level at a time, root included. Its result is an ancestor that holds the file. |
| ConfigPath.TestDirIsAscent | local-cli/util/Config.js:253-262 | `testDir` is the one-level ascent with a result at the root dropped. |
| ConfigPath.FindParentDirectoryIsAscent | local-cli/util/Config.js:251-265 | The search equals the ascent from the start directory, except that from a non-root start a file directly under `/` is not found. |
| ConfigPath.FindConfigPath | local-cli/util/Config.js:244-247 | There is a config path exactly when a directory is found. The path exists, ends in `rn-cli.config.js`, and its dirname is the found directory. |
| Roots.Reduce | local-cli/util/Config.js:172-176 | The reduce only appends: the accumulator is always a prefix of the result. |
| Roots.ReduceIsConcat | local-cli/util/Config.js:171-177 | The reduce gives the accumulator followed by each remaining root's discoveries in order. |
| Roots.ResolveSymlinksForRoots | local-cli/util/Config.js:171-177 | The reduce, starting from a copy of the roots. Its shape is stated by `ResolveSymlinksShape`. |
| Roots.DiscoveredLength | local-cli/util/Config.js:173-175 | The concatenated discoveries are as long as the discovered lists together. |
| Roots.DiscoveredContains | local-cli/util/Config.js:173-175 | Every directory discovered for a root is in the concatenation. |
| Roots.MatchesAtEnd | local-cli/util/Config.js:160-164 | The unanchored patterns with either separator. `MatchesJoined`, `MatchesPeel` and `LastCharMismatch` state when it holds. |
| Roots.InstallLayout | local-cli/util/Config.js:160-168 | The three-way branch on `__dirname`. The layout lemmas below state which branch each kind of directory takes. |
| Roots.LevelsUp | local-cli/util/Config.js:163-168 | Four levels for the dependency and CocoaPods layouts, two otherwise. The layout lemmas below state where each layout puts the project. |
| Roots.ProjectPath | local-cli/util/Config.js:159-169 | `getProjectPath()`. The layout lemmas below state where each layout puts the project. |
| Roots.ResolveSymlinksShape | local-cli/util/Config.js:171-177 | The result is the roots followed by every root's discoveries in root order, each found against the full original list. The first n entries are the input. The length is n plus the discovered count. Empty input gives empty output. No discovery is lost. |
| Roots.MatchesJoined | local-cli/util/Config.js:160-164 | Any string ending in the words joined by `/` matches the pattern made of those words. |
| Roots.SegmentsMatch | local-cli/util/Config.js:160-164 | A directory whose last segments are the words matches the pattern. |
| Roots.MatchesPeel | local-cli/util/Config.js:160-164 | Matching after a separator and the last word means matching the other words before it. |
| Roots.LastCharMismatch | local-cli/util/Config.js:160-164 | A string whose last character differs from the last word's last character does not match. |
| Roots.NestedDependencyProjectPath | local-cli/util/Config.js:160-163 | Under `node_modules/react-native/local-cli/util`, the project is the directory that holds `node_modules`, four levels up. |
| Roots.PodsNotNodeModules | local-cli/util/Config.js:160-164 | A directory ending in `Pods/React/packager` does not match the dependency pattern, so the second branch is taken. |
| Roots.CocoaPodsProjectPath | local-cli/util/Config.js:164-166 | Under `Pods/React/packager`, the project is four levels up, the parent of the directory that holds `Pods`. |
| Roots.CheckoutProjectPath | local-cli/util/Config.js:159-169 | When neither pattern matches, the project is two levels up. |
| Roots.UnanchoredPattern | local-cli/util/Config.js:160 | A segment that only ends in `node_modules` still selects the dependency layout, because the pattern is not anchored at the start. |
| Roots.ReactLocalCliNotNodeModules | local-cli/util/Config.js:160 | A directory ending in `React/local-cli/util` does not match the dependency pattern. |
| Roots.CocoaPodsInstallIsCheckout | local-cli/util/Config.js:159-169 | `Pods/React/local-cli/util`, where this file sits in a CocoaPods install, matches neither pattern. The project path is then two levels up, at `Pods/React`. |
| Roots.ProjectRootSeed | local-cli/util/Config.js:197-201 | The seed root. Its two cases are stated by `EnvironmentRootWins` and `NoEnvironmentRoot`. |
| Roots.DefaultProjectRoots | local-cli/util/Config.js:196-202 | The default roots are the seed root followed by what symlink discovery finds for the seed, given the list holding only the seed. |
| Roots.EnvironmentRootWins | local-cli/util/Config.js:197-199 | A non-empty `REACT_NATIVE_APP_ROOT`, once resolved, is the first root. |
| Roots.NoEnvironmentRoot | local-cli/util/Config.js:197-201 | An unset or empty `REACT_NATIVE_APP_ROOT` leaves `getProjectPath()` as the first root. |
| Config.Defaults | local-cli/util/Config.js:189-214 | `DEFAULTS` has exactly its eighteen fields. `getProjectRoots` gives the default roots, `getPlatforms` an empty list and `getWorkerPath` null. |
| Config.DefaultValue | local-cli/util/Config.js:189-213 | The default of each field. `Defaults` states the key set and the values the other lemmas use. |
| Config.ShallowMerge | local-cli/util/Config.js:240 | The merge has the keys of both objects. An overridden key takes the override whole. Every other key keeps its default. |
| Config.MergeEmpty | local-cli/util/Config.js:240 | An empty override gives the defaults unchanged. |
| Config.LoadFile | local-cli/util/Config.js:237-241 | A load error is passed on unchanged. Otherwise the result is the exported object merged over `DEFAULTS`. |
| Config.LoadedKeepsDefaultFields | local-cli/util/Config.js:237-241 | A loaded configuration has every default field. |
| Config.NotFoundMessage | local-cli/util/Config.js:222-225 | The not-found message names `rn-cli.config.js` and the start directory. |
| Config.InfixOf | local-cli/util/Config.js:224 | A string occurs in any string built around it, as a template's values do. |
| Config.FindWithPath | local-cli/util/Config.js:220-228 | With no config file it fails with the not-found message. With a file found in directory d, a successful load gives the loaded object merged over the defaults, with d as the project path. A load error is passed on unchanged. |
| Config.Find | local-cli/util/Config.js:216-218 | It succeeds or fails exactly as `findWithPath` does, with that call's config or error. |
| Config.FindOptional | local-cli/util/Config.js:230-235 | With no config file the result is a copy of `DEFAULTS`. |
| Config.NotFoundOutcomes | local-cli/util/Config.js:216-235 | With no config file on the ancestor chain, `find` fails with the message and `findOptional` gives the defaults. |
| Config.FindOptionalAgreesWhenFound | local-cli/util/Config.js:230-235 | Once a config file is found, `findOptional` and `find` give the same result. |
| Config.ProjectPathIsNearestAncestor | local-cli/util/Config.js:220-228 | The project path `findWithPath` reports is the nearest ancestor of the start directory that holds `rn-cli.config.js`. |
| Scenarios.OverridePlatformsExample | local-cli/util/Config.js:216-241 | For `/home/u/app/src` with a config in `/home/u/app` exporting only `getPlatforms`: the project is `/home/u/app`, `getPlatforms` gives `['ios']`, and every other field is the default. |
| Scenarios.NoConfigExample | local-cli/util/Config.js:216-235 | With no config file anywhere, `findOptional` gives the defaults and `find` fails naming the file and `/home/u/app/src`. |
| Scenarios.RootFileIgnoredExample | local-cli/util/Config.js:253-256 | A config directly under `/` is not found from `/home/u/app/src`. |
| Scenarios.RootFileFoundFromRoot | local-cli/util/Config.js:264 | Started at `/`, the search finds `/rn-cli.config.js`. |

## Left out

- `fs.existsSync`: the filesystem is the set `Host.files` of existing file paths. Real I/O cannot be modelled.
- The dynamic `require(pathToConfig)`: this is `Host.load`, which gives the exported object or what loading throws. Running project code is out of scope.
- An exported value that is not a plain object, and the own-enumerable-property rules of object spread: the loaded value is always a map.
- `path.resolve` of `REACT_NATIVE_APP_ROOT`: this is the collaborator `Host.resolvePath`, because it depends on the process's working directory.
- `findSymlinkedModules`, `blacklist()`, `getPolyfills`, `providesModuleNodeModules` and `require.resolve`: their source is not part of this model. They are parameters, or named `Opaque` values.
- The function-valued defaults (`getTransformOptions`, which is asynchronous, and the post-processing hooks): these are `Opaque` values carried through the merge, with no behaviour and no asynchrony.
- Zero-argument defaults: each is represented by the value it returns (`Thunk`). The default `getProjectRoots` reads the environment when it is called; the model reads `Host` once.
- Windows drive roots, relative start paths, and `.` and `..` segments: a path is a normalised absolute POSIX path. `path.join` normalisation is modelled only as dropping empty segments (`Paths.Clean`).
- The second argument the entry points pass to `loadFile`: `loadFile` ignores it.
- The error class `invariant` throws is not modelled. The model keeps only the message (`Error.Invariant`).
- Config.FindWithPath: `invariant` treats the filled-in template as a format string and replaces each `%s` in it. A start directory containing `%s` therefore gets a different message from the one modelled. That case is not modelled, because `invariant`'s source is not part of this model.
- Config.NotFoundMessage: the message is the template text as filled in, before `invariant` replaces any `%s`. Its claim that the message contains the start directory fails for a directory containing `%s`.
- The Flow type declarations: they are types only, with no behaviour.
