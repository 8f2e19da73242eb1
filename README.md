# gdexporter core, modelled in Dafny

gdexporter exports GDevelop games from the command line. This project models the parts of it that hold
self-contained logic and proves what they promise:

- **Skeleton armatures** (`SkeletonArmature.dfy`).
  - `SharedArmature.loadDragonBones` builds the shared bone tree from DragonBones data. It builds the name maps, resolves parents by name, attaches slots, checks the first skin and builds the four-corner box.
  - `Armature.loadData` mirrors that tree into an instance and routes the slot renderers.
  - The `currentAnimation` state machine: its getters and `setAnimationIndex`/`setAnimationName`.
- **Scene stack** (`SceneStack.dfy`): the runtime scene stack with `push`, `pop`, `replace` and the `step` dispatch. Scenes are objects with a loaded, paused or unloaded status.
- **P2P event bookkeeping** (`P2PTools.dfy`).
  - Per-event data-loss modes, triggered flags and data lists.
  - The peer connect and disconnect queues, the error flag and the post-events step that pops one element per list.
- **Runtime helpers of `gd.js`** (`Gd.dfy`).
  - Colour to hex.
  - `Array.prototype.remove` and `createFrom` on an array class.
  - `objectsListsToArray`, the object and behaviour constructor registries, the callback registry and `staticArray`.
- **Export plugins** (`Plugins.dfy`): `registerPlugin`'s validation and routing of callbacks into the three lists, and the export hooks that run them.
- **Object splitter** (`ObjectSplitter.dfy`): `split`, which replaces sub-objects by references to partial objects, and `unsplit`, which fetches them back. The two are proved inverse for the corrected `unsplit` of the Findings row for GDTools/ObjectSplitter.js:104-125, which skips null children; as written, `unsplit` throws on a null child that `split` left in place.
- **Network tools** (`NetworkTools.dfy`): the variable to JSON serialiser (with a proved string-escape round trip) and the JSON to variable writer, each with the inputs on which it throws a TypeError.
- **Events functions loader** (`EventsFunctionsLoader.dfy`): the `Extension::Behavior::Function` type names and the generated code namespaces.
- **Metadata declaration helpers** (`MetadataDeclarationHelpers.dfy`).
  - Behaviour property storage and reporting.
  - Parameter declaration.
  - The instructions and expressions declared for each behaviour property.
- **Local file system** (`LocalFileSystem.dfy`): the URL and path predicates, the URL short-circuits and the `readDir` filter.
- **Runtime files list** (`RuntimeFilesList.dfy`): the "transform this runtime file" predicates.

`Common.dfy` holds the shared `Option`/`Result` types and the string and sequence helpers.

Each source file is one module.
- Objects whose fields the source updates in place are classes whose methods state the whole new state: the armatures, the scene stack, the P2P state, the registries, the JS array and the plugin registry.
- Values the source only computes are datatypes and functions.
- Collaborators whose code is not part of this model are parameters of the operations that call them:
  - the `gd.*` objects;
  - the bone, slot, animation and renderer internals;
  - `JSON.parse` and number formatting;
  - `mangleName`;
  - the path library.

## Model

| member | source | states |
|---|---|---|
| EventsFunctionsLoader.SplitOnSeparator | GDTools/EventsFunctionsExtensionsLoader/index.js:397-403 | splitting on "::" always yields at least one part, so the source's "no parts" branch is never taken |
| EventsFunctionsLoader.SplitThenJoin | GDTools/EventsFunctionsExtensionsLoader/index.js:397 | joining the parts of a split with "::" gives back the type string |
| EventsFunctionsLoader.SplitWithoutSeparator | GDTools/EventsFunctionsExtensionsLoader/index.js:397 | a string without "::" splits into itself alone |
| EventsFunctionsLoader.SplitAfterFirst | GDTools/EventsFunctionsExtensionsLoader/index.js:397 | splitting `e + "::" + rest` gives `e` then the parts of `rest`, when `e` holds no "::" and does not end with ':' |
| EventsFunctionsLoader.GetFunctionNameFromType | GDTools/EventsFunctionsExtensionsLoader/index.js:396-410 | the name is the last part, the extension the first, and the behavior is the second part exactly when there are more than two parts |
| EventsFunctionsLoader.TypeWithoutSeparator | GDTools/EventsFunctionsExtensionsLoader/index.js:396-410 | a type without "::" names the function and the extension alike, with no behavior |
| EventsFunctionsLoader.GetFreeEventsFunctionType | GDTools/EventsFunctionsExtensionsLoader/index.js:417-419 | the type is the extension name, then "::", then the function name |
| EventsFunctionsLoader.FreeFunctionTypeRoundTrip | GDTools/EventsFunctionsExtensionsLoader/index.js:413-419 | reading a free function's type back gives its function and extension names and no behavior, when neither name holds "::" and the extension name does not end with ':' |
| EventsFunctionsLoader.FreeFunctionTypeTrailingColon | GDTools/EventsFunctionsExtensionsLoader/index.js:413-419 | the reverse operation fails for an extension name ending with ':': "a:" and "b" read back as "a" and ":b" |
| EventsFunctionsLoader.GetParametersIndexOffset | GDTools/EventsFunctionsExtensionsLoader/index.js:427-431 | the offset is 0 exactly for a behavior method and 1 for a free function |
| EventsFunctionsLoader.EventFunctionMetadataExactly | GDTools/EventsFunctionsExtensionsLoader/index.js:381-389 | metadata without parameters is not from an events function; otherwise it is exactly when the last parameter has type "eventsFunctionContext" |
| EventsFunctionsLoader.CodeNamespacePrefix | GDTools/EventsFunctionsExtensionsLoader/index.js:121-122 | the prefix is "gdjs.evtsExt__" followed by the mangled extension name |
| EventsFunctionsLoader.FreeFunctionCodeNamespace | GDTools/EventsFunctionsExtensionsLoader/index.js:19-21 | the namespace is the prefix, "__", then the mangled function name |
| EventsFunctionsLoader.BehaviorFunctionCodeNamespace | GDTools/EventsFunctionsExtensionsLoader/index.js:24-29 | the namespace is the prefix, "__", then the mangled behavior name |
| EventsFunctionsLoader.FreeFunctionName | GDTools/EventsFunctionsExtensionsLoader/index.js:199 | the generated function name is the namespace followed by ".func" |
| EventsFunctionsLoader.FreeFunctionNameLayout | GDTools/EventsFunctionsExtensionsLoader/index.js:195-199 | a free function's generated name splits into the fixed head, the mangled extension name, "__", the mangled function name and ".func" |
| RuntimeFilesList.LastIndexOf | GDTools/runtime-files-list.js:69 | the result is -1 or an index holding the character, and no later index holds it |
| RuntimeFilesList.Basename | GDTools/runtime-files-list.js:69 | the basename is a suffix of the path and holds no '/' |
| RuntimeFilesList.BasenameIs | GDTools/runtime-files-list.js:69 | a path's basename is a given name without '/' exactly when the path is that name or ends with '/' and that name |
| RuntimeFilesList.Extname | GDTools/runtime-files-list.js:57 | the extension is empty, or starts at the last '.' of the basename (no other '.' follows) and is a proper suffix of it; it is empty exactly when the basename is ".." or has no '.' after its first character |
| RuntimeFilesList.TestDirectoryPaths | GDTools/runtime-files-list.js:66-75 | a path is a test directory exactly when it is a directory and is `test`, `tests` or `__tests__`, or ends with '/' followed by one of them |
| RuntimeFilesList.BasenameKeepsSuffix | GDTools/runtime-files-list.js:57 | a path ending with a suffix without '/' has a basename ending with that suffix |
| RuntimeFilesList.ExtnameOfSuffix | GDTools/runtime-files-list.js:57 | a path ending with ".js" or ".ts", whose basename is not that suffix alone, has that extension |
| RuntimeFilesList.TransformedFilesAreAllowed | GDTools/runtime-files-list.js:54-59 | a file that is transformed passes the allowed-extension filter and is not an extension declaration, unless its basename is just ".js" or ".ts" |
| RuntimeFilesList.UntransformedConditions | GDTools/runtime-files-list.js:101-117 | each of the four conditions alone makes a file untransformed: no ".js"/".ts" ending, a ".min.js"/".d.ts" ending, a JsExtension.js basename, a prebuilt path prefix |
| RuntimeFilesList.PlainSourceIsTransformed | GDTools/runtime-files-list.js:101-117 | a ".js" file that is not ".min.js", not an extension declaration and under no prebuilt path is transformed, so the disjunction is exact |
| LocalFileSystem.ExternalUrlExactly | GDTools/LocalFileSystem.js:145-147 | a name is an external URL exactly when it starts with "http" or is the three letters "ftp" |
| LocalFileSystem.FtpAddressIsNotExternal | GDTools/LocalFileSystem.js:145-147 | an "ftp://" address is not an external URL, because a four-character prefix is compared with "ftp" |
| LocalFileSystem.TranslateUrl | GDTools/LocalFileSystem.js:152-157 | one leading "g/" or "g\" is removed and the rest is kept; any other name is unchanged |
| LocalFileSystem.TranslateStripsOnce | GDTools/LocalFileSystem.js:152-157 | only the first prefix goes: "g/" + rest and "g\" + rest translate to rest, whatever rest starts with |
| LocalFileSystem.KeptAsIs | GDTools/LocalFileSystem.js:145-157 | a name starting with '/' or '.', or with ':' as its second character, is not an external URL and translates to itself |
| LocalFileSystem.AbsolutePathForms | GDTools/LocalFileSystem.js:73-82 | the empty path, "/" paths, drive paths such as "C:" and their "g/"-prefixed forms are absolute; "./" and "../" paths are not |
| LocalFileSystem.GamePrefixedPaths | GDTools/LocalFileSystem.js:73-82 | "g/" before an absolute Unix path gives an absolute path, and "g/" before a relative one does not |
| LocalFileSystem.FileNameFrom | GDTools/LocalFileSystem.js:46-51 | an external URL comes back unchanged; any other path gives the basename of its translation |
| LocalFileSystem.DirNameFrom | GDTools/LocalFileSystem.js:52-57 | an external URL gives ""; any other path gives the dirname of its translation |
| LocalFileSystem.MakeAbsolute | GDTools/LocalFileSystem.js:58-66 | an external URL is unchanged; otherwise the normalized translation is resolved against the base, which is resolved first when not absolute |
| LocalFileSystem.MakeRelative | GDTools/LocalFileSystem.js:67-72 | an external URL is unchanged; otherwise the normalized translation is made relative to the base |
| LocalFileSystem.CopyFile | GDTools/LocalFileSystem.js:83-95 | URLs and a translated source equal to the destination copy nothing and return true; otherwise the copy is attempted and the result is true exactly when it does not throw |
| LocalFileSystem.CopyFileFalseOnlyOnFailure | GDTools/LocalFileSystem.js:83-95 | false is returned only after a copy was attempted and threw, and never when copies succeed |
| LocalFileSystem.IndexOfFrom | GDTools/LocalFileSystem.js:124 | the first index at or after the start where the searched string occurs, or -1 exactly when it occurs at no such index |
| LocalFileSystem.IndexOf | GDTools/LocalFileSystem.js:124 | `indexOf` with a start position clamped to 0: the first occurrence at or after it, or -1 exactly when there is none |
| LocalFileSystem.KeepsFileIffEndsWith | GDTools/LocalFileSystem.js:115-125 | the filter keeps a file exactly when the extension is empty or the upper-cased name ends with the upper-cased extension |
| LocalFileSystem.Listed | GDTools/LocalFileSystem.js:119-128 | the listing keeps at most as many entries as there are files |
| LocalFileSystem.ListedEntries | GDTools/LocalFileSystem.js:119-128 | every output entry is the path, '/', and a kept file of the directory, and every kept file has its entry |
| LocalFileSystem.ListedAllWithoutExtension | GDTools/LocalFileSystem.js:122-123 | with an empty extension every file of the directory is listed |
| LocalFileSystem.ReadDir | GDTools/LocalFileSystem.js:114-135 | a missing directory gives an empty list; otherwise the loop outputs exactly the listing of kept files, in directory order |
| Plugins.TypeOf | src/plugins.js:50-52 | `typeof` is "object" exactly for null and objects, "function" exactly for functions, "undefined" exactly for undefined |
| Plugins.ConstructorArgument | src/plugins.js:74 | the constructor gets the options object itself, or `{}` when the options are undefined or null |
| Plugins.PluginCallbacksAsWritten | src/plugins.js:48-80 | as written, a null descriptor throws, and a descriptor that is neither a function nor of type "object" registers nothing |
| Plugins.NullPluginThrows | src/plugins.js:52-59 | a null descriptor passes the `typeof` test and then throws when its fields are read |
| Plugins.NullCallbacksThrow | src/plugins.js:77-82 | a constructor returning null passes the `typeof` test and then throws when its callbacks are read |
| Plugins.PluginCallbacks | src/plugins.js:48-80 | a function plugin is called with `{}`; a descriptor needs object-or-undefined options and a function `plugin` field; only a non-null object result gives callbacks; everything else registers nothing |
| Plugins.PluginCallbacksAgree | src/plugins.js:48-80 | the intended validation gives the same callbacks as the written one wherever the latter does not throw, and nothing where it throws |
| Plugins.CallbackFor | src/plugins.js:82-84 | a callback is taken exactly when the plugin returned callbacks and the named one is truthy, and it is that value |
| Plugins.RunDocumentAsWritten | src/plugins.js:21-41 | as written the document is always parsed, patched by every document callback in order and written back |
| Plugins.EmptyDocumentStillRewritten | src/plugins.js:23 | with no document callback, index.html is still parsed and written back |
| Plugins.RunDocument | src/plugins.js:21-41 | the document is skipped exactly when there is no document callback; otherwise every callback runs in order |
| Plugins.PluginRegistry.constructor | src/plugins.js:14-16 | the three callback lists start empty |
| Plugins.PluginRegistry.RegisterPlugin | src/plugins.js:48-85 | each list gains exactly the plugin's truthy callback of its kind, appended once; only truthy values are ever stored; an invalid plugin changes no list, which for `null` is the corrected behaviour of the Findings row for src/plugins.js:52-59; as written `null` throws (`NullPluginThrows`) |
| Plugins.PluginRegistry.RunPreExport | src/plugins.js:91-95 | the progress message is always logged, since the `.size` test never holds, and the callbacks are called in registration order |
| Plugins.PluginRegistry.RunPostExport | src/plugins.js:101-106 | runs the corrected document step of the Findings row for src/plugins.js:23 (skipped when there is no document callback, where the code as written always runs it), then the post-export callbacks in registration order |
| Plugins.ConstructorArguments | src/plugins.js:50-74 | a function plugin gets `{}`, and a descriptor's constructor gets its options or `{}`; the result is kept only when it is an object |
| SceneStack.RuntimeGame.constructor | GDTools/Runtime/scenestack.js:15 | the game the stack holds starts not stopped and knows the given external layouts |
| SceneStack.RuntimeScene.constructor | GDTools/Runtime/scenestack.js:97-98 | a scene made by `push` is loaded from the named scene, runs, has not been rendered and requests no change |
| SceneStack.RuntimeScene.OnPause | GDTools/Runtime/scenestack.js:91-94 | pausing a scene sets it paused and leaves its requests, renders and layout alone |
| SceneStack.RuntimeScene.OnResume | GDTools/Runtime/scenestack.js:80-84 | resuming a scene sets it running and leaves the rest alone |
| SceneStack.RuntimeScene.UnloadScene | GDTools/Runtime/scenestack.js:78 | unloading a scene marks it unloaded and leaves the rest alone |
| SceneStack.RuntimeScene.Render | GDTools/Runtime/scenestack.js:66 | rendering a scene counts one more render and changes nothing else |
| SceneStack.RuntimeScene.CreateObjectsFrom | GDTools/Runtime/scenestack.js:102-106 | creating objects from an external layout records that layout in the scene |
| SceneStack.SceneStack.constructor | GDTools/Runtime/scenestack.js:15-21 | a new stack keeps the game, is empty, valid, and no first scene was loaded |
| SceneStack.NewSceneStack | GDTools/Runtime/scenestack.js:10-22 | constructing a stack without a runtime game fails (null), with one gives an empty valid stack |
| SceneStack.SceneStack.WasFirstSceneLoaded | GDTools/Runtime/scenestack.js:142-144 | answers whether a scene was ever loaded |
| SceneStack.SceneStack.GetCurrentScene | GDTools/Runtime/scenestack.js:133-137 | null exactly when the stack is empty, otherwise the top scene |
| SceneStack.SceneStack.Pop | GDTools/Runtime/scenestack.js:71-87 | on one scene or none nothing changes and null is returned; otherwise the top scene is removed, unloaded and returned, the scene below runs, the others keep their status, and the stack stays valid (distinct scenes, only the top running), and every old scene keeps its requested change, render count and external layout |
| SceneStack.SceneStack.Push | GDTools/Runtime/scenestack.js:89-110 | every scene already on the stack is paused, a fresh running scene for the name is appended and returned, the first-scene flag is set, and the layout's objects are created exactly when a non-empty known layout name is given, and every old scene keeps its requested change, render count and external layout |
| SceneStack.SceneStack.Replace | GDTools/Runtime/scenestack.js:112-128 | with `clear` every old scene is unloaded and the stack is the new scene alone; without it only the old top is removed and unloaded, the rest stays paused below the new scene, and every old scene keeps its requested change, render count and external layout |
| SceneStack.SceneStack.UnloadAll | GDTools/Runtime/scenestack.js:113-118 | the clearing loop of `replace` empties the stack and leaves every old scene unloaded, with its requested change, render count and external layout kept |
| SceneStack.SceneStack.RenderWithoutStep | GDTools/Runtime/scenestack.js:62-69 | true exactly when the stack is non-empty, in which case the top scene was rendered once more and keeps its requests and external layout; the scenes below it keep their requests, render counts and layouts; no status changes |
| SceneStack.SceneStack.Step | GDTools/Runtime/scenestack.js:35-60 | false on an empty stack; otherwise the top scene is rendered once more and keeps its requests and external layout, and the scenes below it keep their requests, render counts and layouts; then: true without a request; with one: stop-game stops the game and only it does; pop removes and unloads the top when there is more than one scene; push pauses the top and appends the target; replace unloads the top and puts the target in its place; clear unloads every scene and leaves the target alone; push, replace and clear set the first-scene flag, the others keep it; `Continue` gives false |
| SceneStack.SceneStack.CarryOutRequest | GDTools/Runtime/scenestack.js:39-59 | true without a request; with one: stop-game stops the game and only it does; pop removes and unloads the top when there is more than one scene; push pauses the top and appends the target; replace unloads the top and puts the target in its place; clear unloads every scene and leaves the target alone; push, replace and clear set the first-scene flag, the others keep it; `Continue` gives false; no scene's requests, renders or layout change |
| Gd.HexDigit | Runtime/gd.js:42 | a value below 16 prints as one lowercase hex digit |
| Gd.HexDigitValue | Runtime/gd.js:42 | a lowercase hex digit reads back as a value below 16 |
| Gd.HexDigits | Runtime/gd.js:42 | k digits of a number print as exactly k lowercase hex digits |
| Gd.ToHex | Runtime/gd.js:42 | `toString(16)` of a non-negative integer is a non-empty string of lowercase hex digits |
| Gd.HexDigitRoundTrip | Runtime/gd.js:42 | each hex digit reads back as the value it was printed from |
| Gd.HexDigitsValue | Runtime/gd.js:42 | `k` printed digits of a number below 16^k read back as that number |
| Gd.ToHexOfPadded | Runtime/gd.js:42 | printing 16^k + n in hex gives "1" followed by n zero-padded to k digits, which is why `slice(1)` pads |
| Gd.HexDigitsConcat | Runtime/gd.js:41-54 | the digits of `hi * 16^k + lo` are the digits of `hi` followed by the `k` digits of `lo` |
| Gd.ChannelLayout | Runtime/gd.js:52-54 | the shifted channels add up positionally: red-green then blue is `r*65536 + g*256 + b` |
| Gd.RgbToHexNumber | Runtime/gd.js:52-54 | `(r << 16) + (g << 8) + b` is below 16^6 for channels in 0..255 |
| Gd.RgbToHexNumberChannels | Runtime/gd.js:52-54 | each channel is recovered from the number: blue is its low byte, green the next, red the rest |
| Gd.RgbToHex | Runtime/gd.js:41-43 | the colour string consists of lowercase hex digits only |
| Gd.RgbToHexPadded | Runtime/gd.js:41-43 | the colour string is the colour number zero-padded to six hex digits |
| Gd.ChannelDigits | Runtime/gd.js:41-54 | the six digits of the colour number are two digits per channel, red, green, blue |
| Gd.RgbToHexDigits | Runtime/gd.js:41-54 | the colour string has length 6, is two zero-padded digits per channel in order, and reads back as `rgbToHexNumber` |
| Gd.RgbToHexWhite | Runtime/gd.js:41-43 | white is "ffffff" |
| Gd.Removed | Runtime/gd.js:361-367 | what `remove` leaves is one element shorter than the array |
| Gd.RemovedOneElement | Runtime/gd.js:361-367 | `remove(from)` keeps the elements before the removed position, shifts the ones after it left by one, and loses exactly one element (the one at `from`, the last one past the end, the first one for negative `from`) |
| Gd.JsArray.constructor | Runtime/gd.js:317 | an array holds the given elements |
| Gd.JsArray.Remove | Runtime/gd.js:361-367 | on a non-empty array the shifting loop leaves exactly `Removed(old, from)`; on an empty one setting the length to -1 fails and nothing changes |
| Gd.JsArray.CreateFrom | Runtime/gd.js:369-375 | after copying and truncating, the receiver holds exactly the elements of `arr`, whatever it held before |
| Gd.ConcatMembers | Runtime/gd.js:347-359 | an object is in the concatenation exactly when it is in one of the lists |
| Gd.ObjectsListsToArray | Runtime/gd.js:347-359 | the nested loops produce the lists' objects list after list, in order |
| Gd.Registry.CallbacksOf | Runtime/gd.js:21-29 | a kind of callback without an entry has an empty list |
| Gd.Registry.constructor | Runtime/gd.js:11-30 | the registries start with the base object and behavior under the empty name and every callback list empty |
| Gd.Registry.RegisterObject | Runtime/gd.js:144-146 | the constructor is stored under the name, replacing any previous one; `getObjectConstructor` then returns it, and other names keep theirs |
| Gd.Registry.RegisterBehavior | Runtime/gd.js:168-170 | the same for behaviors |
| Gd.Registry.GetObjectConstructor | Runtime/gd.js:289-295 | a registered name gives its constructor; an unknown or undefined name gives the one under "" |
| Gd.Registry.GetBehaviorConstructor | Runtime/gd.js:303-309 | the same for behaviors |
| Gd.Registry.RegisterCallback | Runtime/gd.js:178-253 | the callback is appended to the list of its kind and every other list and registry is unchanged |
| Gd.Registry.ClearGlobalCallbacks | Runtime/gd.js:271-281 | every callback list becomes empty and the type registries stay |
| Gd.StaticArrayOwner.constructor | Runtime/gd.js:316-319 | a new owner has no static array yet |
| Gd.StaticArray | Runtime/gd.js:316-319 | the owner's existing array is returned, or a fresh empty one that the owner keeps |
| Gd.StaticArrayTwice | Runtime/gd.js:316-319 | two calls for the same owner return the same array |
| NetworkTools.NewVariable | Runtime/events-tools/networktools.js:91 | a variable `getChild` creates is not a structure and has no children |
| NetworkTools.Names | Runtime/events-tools/networktools.js:62-63 | the names of a variable's children, one per child, in order |
| NetworkTools.LookupFindsNames | Runtime/events-tools/networktools.js:91 | a child is found exactly when its name is among the children's names |
| NetworkTools.SetChild | Runtime/events-tools/networktools.js:91-97 | after writing child `name` it holds the new value and every other name keeps its value |
| NetworkTools.SetChildNames | Runtime/events-tools/networktools.js:91-97 | writing an existing child keeps the order of names; a new name is added last |
| NetworkTools.GetChild | Runtime/events-tools/networktools.js:91-97 | `getChild` returns the existing child, or a new variable when there is none |
| NetworkTools.WithChild | Runtime/events-tools/networktools.js:91-97 | a variable whose child was written is a structure, keeps its own value, holds the new child and keeps every other child |
| NetworkTools.EscapeChar | Runtime/events-tools/networktools.js:57 | each character `JSON.stringify` escapes is written as at least one character |
| NetworkTools.Escape | Runtime/events-tools/networktools.js:57 | escaping never shortens a string |
| NetworkTools.Quote | Runtime/events-tools/networktools.js:57 | `JSON.stringify` of a string starts and ends with a double quote |
| NetworkTools.DecodeEscapeChar | Runtime/events-tools/networktools.js:57 | every escaped character decodes back to itself, whatever follows it |
| NetworkTools.DecodeShortEscape | Runtime/events-tools/networktools.js:57 | a two-character escape such as `\n` decodes to its character |
| NetworkTools.DecodeUnicodeEscape | Runtime/events-tools/networktools.js:57 | a control character's `\u00XX` escape decodes to that character |
| NetworkTools.DecodeEscape | Runtime/events-tools/networktools.js:57 | an escaped string body decodes back to the string |
| NetworkTools.QuoteRoundTrip | Runtime/events-tools/networktools.js:57 | the JSON text written for a string is a string literal that denotes that string |
| NetworkTools.MembersTextStep | Runtime/events-tools/networktools.js:63-69 | each loop turn adds a comma (except the first time) and the next child's `"name": json` |
| NetworkTools.MemberTexts | Runtime/events-tools/networktools.js:66 | one member text per child |
| NetworkTools.MembersTextIsJoin | Runtime/events-tools/networktools.js:60-72 | what the loop builds from the first `n` children is their member texts joined by "," |
| NetworkTools.ToJsonShape | Runtime/events-tools/networktools.js:51-74 | a number leaf is its number text, any other leaf a quoted string, a structure its members joined by "," between braces, "{}" with no children |
| NetworkTools.TextLeafRoundTrip | Runtime/events-tools/networktools.js:53-57 | the JSON text of a string variable reads back as its string |
| NetworkTools.VariableToJson | Runtime/events-tools/networktools.js:51-74 | throws exactly when a structure, at any depth, has a child named "hasOwnProperty", which hides the method the loop calls at line 64; otherwise the loop with its `firstChild` flag produces exactly the JSON text of the variable |
| NetworkTools.HasOwnPropertyChildThrows | Runtime/events-tools/networktools.js:62-66 | a structure with a child named "hasOwnProperty" throws when serialised; one whose only child is a leaf of another name does not |
| NetworkTools.Write | Runtime/events-tools/networktools.js:81-102 | what the write stores, its throws being stated apart by `ThrowsIn`: writing a parsed value into a variable never removes a child it had |
| NetworkTools.WriteItems | Runtime/events-tools/networktools.js:89-93 | after the first `n` array items every name "0" .. "n-1" is a child, earlier children stay, and the variable is a structure |
| NetworkTools.WriteMembers | Runtime/events-tools/networktools.js:94-100 | after the first `n` properties each of their names is a child and earlier children stay |
| NetworkTools.IndexNames | Runtime/events-tools/networktools.js:91 | the names `i.toString()` for `i` in 0 .. n-1, in order |
| NetworkTools.NatToStringInjective | Runtime/events-tools/networktools.js:91 | distinct indices give distinct child names |
| NetworkTools.NameOfIndexIsNew | Runtime/events-tools/networktools.js:91 | the name of a later index is not among the earlier ones |
| NetworkTools.ArrayChildrenInOrder | Runtime/events-tools/networktools.js:89-93 | written into a new variable, an array's items become exactly the children "0" .. "n-1", in order |
| NetworkTools.WrittenChildren | Runtime/events-tools/networktools.js:89-100 | every array item and every object property gets a child |
| NetworkTools.StringsAndNumbers | Runtime/events-tools/networktools.js:83-88 | a string JavaScript reads as a number is stored as that number, any other as text, and neither touches the children |
| NetworkTools.NumericArrayAsWritten | Runtime/events-tools/networktools.js:83-93 | as written, `[n]` is stored as the number n with no child, while with arrays checked first it becomes a structure with child "0" |
| NetworkTools.ObjectToVariable | Runtime/events-tools/networktools.js:81-102 | throws exactly where `ThrowsIn` says (an object, at any depth, with its own "toString" or "hasOwnProperty"); otherwise the recursion computes exactly `Written`; either way no child the variable had is removed. `Written` tests arrays before numbers: the corrected behaviour of the Findings row for Runtime/events-tools/networktools.js:83-93; as written a one-number array is stored as a number (`WrittenAsWritten`, `NumericArrayAsWritten`) |
| NetworkTools.ThrowingValues | Runtime/events-tools/networktools.js:83-96 | `{"toString": x}`, an array holding it and `{"hasOwnProperty": x}` make the write throw, while `{"valueOf": x}` throws only where `x` does |
| NetworkTools.ItemsToVariable | Runtime/events-tools/networktools.js:89-93 | the loop over an array throws exactly when writing one of its items throws; otherwise it writes every item into the children "0" .. "n-1" as `WriteItems` says |
| NetworkTools.ItemToVariable | Runtime/events-tools/networktools.js:90-92 | one turn: throws exactly when the item's write throws, and otherwise extends the written prefix by that item |
| NetworkTools.MembersToVariable | Runtime/events-tools/networktools.js:94-100 | the loop over an object throws at once when it has its own "hasOwnProperty", or when writing one of its values throws; otherwise it writes every property as `WriteMembers` says |
| NetworkTools.MemberToVariable | Runtime/events-tools/networktools.js:95-98 | one turn: throws exactly when the property value's write throws, and otherwise extends the written prefix by that property |
| NetworkTools.JsonToVariableStructure | Runtime/events-tools/networktools.js:111-122 | an empty string or text `JSON.parse` rejects gives false and leaves the variable; a parsed value whose write throws gives false; any other gives true with the variable written as `Written`, the corrected behaviour of the Findings row for Runtime/events-tools/networktools.js:83-93 (as written a one-number array becomes a number); no child is ever removed |
| ObjectSplitter.Lookup | GDTools/ObjectSplitter.js:105 | a property's value is found exactly when an own property has that name |
| ObjectSplitter.KeyIndex | GDTools/ObjectSplitter.js:163 | a property name denotes an index of an array or string exactly when it is that index written in decimal |
| ObjectSplitter.RefNode | GDTools/ObjectSplitter.js:24-27 | the reference `split` writes is an object |
| ObjectSplitter.SplitValue | GDTools/ObjectSplitter.js:30-83 | null and non-objects are left alone with no partial object; arrays stay arrays of the same length and objects stay objects with the same property names in order; `true` appears only where it was |
| ObjectSplitter.SplitItems | GDTools/ObjectSplitter.js:36-58 | each array item is mirrored: `true` only where it was, and a reference object wherever the items' path "*" is split |
| ObjectSplitter.ItemsMirrorCons | GDTools/ObjectSplitter.js:37-58 | the mirror of one item and the mirror of the rest make the mirror of the items from that index |
| ObjectSplitter.SplitProps | GDTools/ObjectSplitter.js:60-80 | each property keeps its name and, where its path is split, becomes the reference to parent reference, separator and name |
| ObjectSplitter.PropsMirrorCons | GDTools/ObjectSplitter.js:60-80 | the mirror of one property and the mirror of the rest make the mirror of the properties from that index |
| ObjectSplitter.SplitNothing | GDTools/ObjectSplitter.js:8-87 | when no path is split, `split` changes nothing and returns no partial object |
| ObjectSplitter.SplitItemsNothing | GDTools/ObjectSplitter.js:36-58 | the same for the items of an array |
| ObjectSplitter.SplitPropsNothing | GDTools/ObjectSplitter.js:60-80 | the same for the properties of an object |
| ObjectSplitter.SplitOneProperty | GDTools/ObjectSplitter.js:60-72 | a split property is replaced by the reference to separator and name, and the first partial object is stored under it |
| ObjectSplitter.SplitPaths | GDTools/ObjectSplitter.js:154-156 | the predicate holds exactly for the listed paths |
| ObjectSplitter.GetNameFromProperty | GDTools/ObjectSplitter.js:161-170 | a string property is the name; a missing or non-string property throws, and so does a null item |
| ObjectSplitter.UnsplitValue | GDTools/ObjectSplitter.js:112-146 | at or below the maximum depth, and for null and non-objects, nothing changes |
| ObjectSplitter.UnsplitItems | GDTools/ObjectSplitter.js:121-141 | an unsplit array has as many items as before |
| ObjectSplitter.UnsplitProps | GDTools/ObjectSplitter.js:121-141 | an unsplit object has as many properties as before |
| ObjectSplitter.NullPropertyAsWritten | GDTools/ObjectSplitter.js:104-125 | as written, `{a: null}` cannot be unsplit though `split` leaves it unchanged; the corrected `unsplit` returns it as it is |
| ObjectSplitter.ItemsHeight | GDTools/ObjectSplitter.js:131-139 | an array is at least one level higher than each of its items |
| ObjectSplitter.PropsHeight | GDTools/ObjectSplitter.js:131-139 | an object is at least one level higher than each of its property values |
| ObjectSplitter.RefNodeIsReference | GDTools/ObjectSplitter.js:24-27 | the reference `split` writes is recognised by `isReference` and its `referenceTo` is the reference |
| ObjectSplitter.LookupTrueAgrees | GDTools/ObjectSplitter.js:105 | a magic property `true` after splitting was `true` before |
| ObjectSplitter.SplitKeepsNonReference | GDTools/ObjectSplitter.js:30-83 | what is not a reference before `split` is not one after it |
| ObjectSplitter.SplitItemsStep | GDTools/ObjectSplitter.js:37-57 | one loop turn: the item becomes a reference (with its partial object recorded) or its split self, and every partial object found inside is returned |
| ObjectSplitter.SplitPropsStep | GDTools/ObjectSplitter.js:60-79 | one loop turn over a property, as for items |
| ObjectSplitter.PartsAreSplitLocations | GDTools/ObjectSplitter.js:8-87 | `split` succeeds exactly when naming its split array items does, and then returns one partial object per split location, in the order the traversal meets them, each under that location's reference |
| ObjectSplitter.ItemPartsAreLocations | GDTools/ObjectSplitter.js:36-58 | the same for the items of an array from an index on |
| ObjectSplitter.PropPartsAreLocations | GDTools/ObjectSplitter.js:60-80 | the same for the properties of an object from an index on |
| ObjectSplitter.UnsplitReference | GDTools/ObjectSplitter.js:125-136 | a reference child is replaced by its fetched partial object, unsplit one level deeper |
| ObjectSplitter.UnsplitOther | GDTools/ObjectSplitter.js:139 | any other child is unsplit one level deeper |
| ObjectSplitter.RoundTripChild | GDTools/ObjectSplitter.js:123-139 | unsplitting what `split` made of a child gives the child back; the corrected behaviour of the Findings row for GDTools/ObjectSplitter.js:104-125, where `unsplit` skips null children; as written `unsplit` throws on an object with a null child |
| ObjectSplitter.RoundTripItems | GDTools/ObjectSplitter.js:36-58 | unsplitting the split items gives the original items; the corrected behaviour of the Findings row for GDTools/ObjectSplitter.js:104-125, where `unsplit` skips null children; as written `unsplit` throws on an object with a null child |
| ObjectSplitter.RoundTripProps | GDTools/ObjectSplitter.js:60-80 | unsplitting the split properties gives the original properties; the corrected behaviour of the Findings row for GDTools/ObjectSplitter.js:104-125, where `unsplit` skips null children; as written `unsplit` throws on an object with a null child |
| ObjectSplitter.RoundTripProp | GDTools/ObjectSplitter.js:60-80 | a split property keeps its name and unsplits back to its value, and the properties after it still meet the round trip's conditions; the corrected behaviour of the Findings row for GDTools/ObjectSplitter.js:104-125, where `unsplit` skips null children; as written `unsplit` throws on an object with a null child |
| ObjectSplitter.RoundTrip | GDTools/ObjectSplitter.js:30-146 | with every partial object fetchable by its reference, no depth limit, enough fuel and no pre-existing reference, unsplitting a split value gives it back; the corrected behaviour of the Findings row for GDTools/ObjectSplitter.js:104-125, where `unsplit` skips null children; as written `unsplit` throws on an object with a null child |
| ObjectSplitter.SplitThenUnsplit | GDTools/ObjectSplitter.js:8-149 | `unsplit(split(object))` is the object, under the same conditions; the corrected behaviour of the Findings row for GDTools/ObjectSplitter.js:104-125, where `unsplit` skips null children; as written `unsplit` throws on an object with a null child |
| P2PTools.PayloadValue | GDTools/Runtime/Extensions/P2P/B_p2ptools.js:262-264 | reading missing data gives `undefined`, a string gives that string |
| P2PTools.PopLast | GDTools/Runtime/Extensions/P2P/B_p2ptools.js:394-399 | a non-empty data list loses its last element; an empty list or a single value is unchanged |
| P2PTools.P2PState.constructor | GDTools/Runtime/Extensions/P2P/B_p2ptools.js:8-83 | every map and queue starts empty, with no error |
| P2PTools.P2PState.OnEvent | GDTools/Runtime/Extensions/P2P/B_p2ptools.js:181-197 | the first call fixes the event's mode; with data loss the triggered flag is returned and lowered (false if the event never came), without it the result is whether data is waiting; nothing else changes |
| P2PTools.P2PState.OnData | GDTools/Runtime/Extensions/P2P/B_p2ptools.js:120-132 | a message without an event name is ignored; without data loss its data is appended to the event's list (a new list if there is none), with data loss the event is flagged and its data replaced |
| P2PTools.P2PState.GetEventData | GDTools/Runtime/Extensions/P2P/B_p2ptools.js:258-266 | without data loss, the last element of the list (`undefined` for an empty one; an event that never came throws); with data loss, the stored value or list |
| P2PTools.P2PState.TriggeredEventHasData | GDTools/Runtime/Extensions/P2P/B_p2ptools.js:120-132 | a raised flag always comes with data that `getEventData` reads back |
| P2PTools.P2PState.WaitingDataIsReadable | GDTools/Runtime/Extensions/P2P/B_p2ptools.js:258-266 | without data loss, once data came `getEventData` does not throw and reads the most recent data |
| P2PTools.P2PState.OnPeerError | GDTools/Runtime/Extensions/P2P/B_p2ptools.js:96-99 | a peer error raises the error flag and keeps the message |
| P2PTools.P2PState.OnError | GDTools/Runtime/Extensions/P2P/B_p2ptools.js:339-343 | the error flag is returned and lowered |
| P2PTools.P2PState.OnConnectionOpen | GDTools/Runtime/Extensions/P2P/B_p2ptools.js:118-119 | an opened connection is recorded under its peer id |
| P2PTools.P2PState.OnRemoteConnectionOpen | GDTools/Runtime/Extensions/P2P/B_p2ptools.js:100-105 | a connection opened by a remote peer is recorded and the peer is queued as connected |
| P2PTools.P2PState.OnDisconnect | GDTools/Runtime/Extensions/P2P/B_p2ptools.js:159-162 | a disconnected peer is queued and its connection forgotten |
| P2PTools.P2PState.SomePeerDisconnected | GDTools/Runtime/Extensions/P2P/B_p2ptools.js:357-359 | true exactly when a disconnected peer is queued |
| P2PTools.P2PState.SomePeerConnected | GDTools/Runtime/Extensions/P2P/B_p2ptools.js:377-379 | true exactly when a connected peer is queued |
| P2PTools.P2PState.GetDisconnectedPeer | GDTools/Runtime/Extensions/P2P/B_p2ptools.js:365-371 | the most recently queued disconnected peer, or "" when none is queued |
| P2PTools.P2PState.GetConnectedPeer | GDTools/Runtime/Extensions/P2P/B_p2ptools.js:385-391 | the most recently queued connected peer, or "" when none is queued |
| P2PTools.P2PState.PostEvents | GDTools/Runtime/Extensions/P2P/B_p2ptools.js:393-405 | after each frame every non-empty data list and each peer queue loses its last element, and everything else stays |
| P2PTools.LastOrEmpty | GDTools/Runtime/Extensions/P2P/B_p2ptools.js:366-370 | the last element of a list, or "" for an empty list |
| MetadataDeclarationHelpers.DisplayName | GDTools/EventsFunctionsExtensionsLoader/MetadataDeclarationHelpers.js:17-18 | `fullName \|\| name` is the full name unless it is empty, then the name; it is empty only when both are |
| MetadataDeclarationHelpers.DeclareExtension | GDTools/EventsFunctionsExtensionsLoader/MetadataDeclarationHelpers.js:11-23 | the extension is declared with its name, its display name, its description, and empty author and license |
| MetadataDeclarationHelpers.IndexOf | GDTools/EventsFunctionsExtensionsLoader/MetadataDeclarationHelpers.js:150 | `indexOf` is -1 exactly when the name is absent, otherwise the first index holding it |
| MetadataDeclarationHelpers.LifecycleFunctionsExactly | GDTools/EventsFunctionsExtensionsLoader/MetadataDeclarationHelpers.js:138-152 | a behavior function is a lifecycle function exactly when it is one of the seven listed names |
| MetadataDeclarationHelpers.StoredElement | GDTools/EventsFunctionsExtensionsLoader/MetadataDeclarationHelpers.js:55-61 | `updateProperty` stores a String or Choice value as is, a Number parsed, a Boolean as whether it is "1", and nothing for other types |
| MetadataDeclarationHelpers.NumberOrZero | GDTools/EventsFunctionsExtensionsLoader/MetadataDeclarationHelpers.js:111 | `parseFloat(v) \|\| 0` always gives a number, the parsed one when it is not NaN |
| MetadataDeclarationHelpers.InitialElement | GDTools/EventsFunctionsExtensionsLoader/MetadataDeclarationHelpers.js:105-114 | `initializeContent` stores a String or Choice default as is, a Number default as its parsed value or 0 when it does not parse (`parseFloat(value) || 0`), a Boolean as whether it is "true", and nothing for any other type |
| MetadataDeclarationHelpers.Reported | GDTools/EventsFunctionsExtensionsLoader/MetadataDeclarationHelpers.js:72-96 | a reported property keeps its name, type and label, and is the default descriptor when no value was stored |
| MetadataDeclarationHelpers.BehaviorContent.constructor | GDTools/EventsFunctionsExtensionsLoader/MetadataDeclarationHelpers.js:43-47 | a behavior's content starts with no stored value |
| MetadataDeclarationHelpers.BehaviorContent.UpdateProperty | GDTools/EventsFunctionsExtensionsLoader/MetadataDeclarationHelpers.js:43-66 | the result is whether some descriptor has the name, and the content is what visiting every descriptor in order leaves |
| MetadataDeclarationHelpers.BehaviorContent.InitializeContent | GDTools/EventsFunctionsExtensionsLoader/MetadataDeclarationHelpers.js:103-116 | the content is what storing every property's default in order leaves |
| MetadataDeclarationHelpers.BehaviorContent.GetProperties | GDTools/EventsFunctionsExtensionsLoader/MetadataDeclarationHelpers.js:69-100 | the loop collects exactly the reported descriptor of every property, later names overriding earlier ones |
| MetadataDeclarationHelpers.UpdateWithoutMatch | GDTools/EventsFunctionsExtensionsLoader/MetadataDeclarationHelpers.js:48-65 | with no descriptor of that name, `updateProperty` adds no child and changes nothing |
| MetadataDeclarationHelpers.UpdateKeepsOthers | GDTools/EventsFunctionsExtensionsLoader/MetadataDeclarationHelpers.js:49-63 | `updateProperty` changes no other property's stored value |
| MetadataDeclarationHelpers.UpdateStoresLast | GDTools/EventsFunctionsExtensionsLoader/MetadataDeclarationHelpers.js:49-63 | the last descriptor with the name decides what is stored |
| MetadataDeclarationHelpers.InitializeStoresLast | GDTools/EventsFunctionsExtensionsLoader/MetadataDeclarationHelpers.js:104-115 | the last descriptor with a name decides what `initializeContent` stores under it |
| MetadataDeclarationHelpers.PropertiesReportLast | GDTools/EventsFunctionsExtensionsLoader/MetadataDeclarationHelpers.js:71-97 | the last descriptor with a name decides what `getProperties` reports under it |
| MetadataDeclarationHelpers.PropertiesKeys | GDTools/EventsFunctionsExtensionsLoader/MetadataDeclarationHelpers.js:71-97 | `getProperties` has exactly one entry per descriptor name |
| MetadataDeclarationHelpers.NoStoredValueKeepsDefault | GDTools/EventsFunctionsExtensionsLoader/MetadataDeclarationHelpers.js:91-96 | a property without a stored value is reported with its default |
| MetadataDeclarationHelpers.UpdateThenGetProperties | GDTools/EventsFunctionsExtensionsLoader/MetadataDeclarationHelpers.js:43-100 | after `updateProperty`, `getProperties` reports a String or Choice value verbatim, a Boolean as "true" exactly when the value was "1", a Number as the text of the parsed number |
| MetadataDeclarationHelpers.InitializeThenGetProperties | GDTools/EventsFunctionsExtensionsLoader/MetadataDeclarationHelpers.js:69-116 | after `initializeContent`, a String or Choice property is reported with its default, a Boolean one as "true" exactly when its default is "true" (and otherwise "false"), a Number one as the text of its parsed default or of 0; name, type and label are kept |
| MetadataDeclarationHelpers.InstructionMetadata.constructor | GDTools/EventsFunctionsExtensionsLoader/MetadataDeclarationHelpers.js:460-463 | an instruction starts with no parameter |
| MetadataDeclarationHelpers.InstructionMetadata.DeclareEventsFunctionParameters | GDTools/EventsFunctionsExtensionsLoader/MetadataDeclarationHelpers.js:460-495 | existing parameters are kept, one parameter per function parameter follows in order (code-only ones without description), each with its extra information, then the context parameter |
| MetadataDeclarationHelpers.DeclaredParametersAreEventFunction | GDTools/EventsFunctionsExtensionsLoader/MetadataDeclarationHelpers.js:460-495 | the declared list ends with the context parameter, so the loader recognises it as an events function, and keeps every parameter's type, code-only flag and extra information |
| MetadataDeclarationHelpers.DeclareInstructionOrExpression | GDTools/EventsFunctionsExtensionsLoader/MetadataDeclarationHelpers.js:170-217 | each function type gives its own kind (expression, string expression, condition, action); the name, display names, group and sentence are as listed |
| MetadataDeclarationHelpers.DeclareBehaviorInstructionOrExpression | GDTools/EventsFunctionsExtensionsLoader/MetadataDeclarationHelpers.js:224-273 | behavior conditions and actions are declared scoped; expressions stay expressions; names and group come from the behavior |
| MetadataDeclarationHelpers.DeclareBehaviorMetadata | GDTools/EventsFunctionsExtensionsLoader/MetadataDeclarationHelpers.js:118-130 | the behavior is declared under its name, as default name and class name, with its display name and object type |
| MetadataDeclarationHelpers.DisplayNamesFallBack | GDTools/EventsFunctionsExtensionsLoader/MetadataDeclarationHelpers.js:17-18 | an empty full name shows the name, and an empty description shows the full name |
| MetadataDeclarationHelpers.WithObjectAndBehavior | GDTools/EventsFunctionsExtensionsLoader/MetadataDeclarationHelpers.js:289-320 | the object and then the behavior parameter are appended and the instruction becomes private; nothing else changes |
| MetadataDeclarationHelpers.PropertyExpression | GDTools/EventsFunctionsExtensionsLoader/MetadataDeclarationHelpers.js:334-345 | the expression of a String, Choice or Number property is a private property instruction named after it, reading it with its getter |
| MetadataDeclarationHelpers.PropertyCondition | GDTools/EventsFunctionsExtensionsLoader/MetadataDeclarationHelpers.js:347-434 | the scoped condition compares strings or numbers with the relational operators, or checks a Boolean, and reads with the getter |
| MetadataDeclarationHelpers.PropertyAction | GDTools/EventsFunctionsExtensionsLoader/MetadataDeclarationHelpers.js:362-449 | the scoped action assigns with the standard operators and names the getter, or for a Boolean takes a yes/no value; it calls the setter |
| MetadataDeclarationHelpers.PropertyInstructions | GDTools/EventsFunctionsExtensionsLoader/MetadataDeclarationHelpers.js:322-451 | an expression, a condition and an action for String, Choice and Number properties, a condition and an action for Boolean ones, nothing otherwise; all private property instructions |
| MetadataDeclarationHelpers.ConditionAmongInstructions | GDTools/EventsFunctionsExtensionsLoader/MetadataDeclarationHelpers.js:334-434 | the condition of a property with instructions is among its declarations |
| MetadataDeclarationHelpers.AllPropertyInstructionsStep | GDTools/EventsFunctionsExtensionsLoader/MetadataDeclarationHelpers.js:322-451 | the declarations of one more property follow those of the earlier ones |
| MetadataDeclarationHelpers.BehaviorMetadata.constructor | GDTools/EventsFunctionsExtensionsLoader/MetadataDeclarationHelpers.js:285-288 | a behavior starts with no instruction declared |
| MetadataDeclarationHelpers.BehaviorMetadata.DeclareBehaviorPropertiesInstructionAndExpressions | GDTools/EventsFunctionsExtensionsLoader/MetadataDeclarationHelpers.js:285-452 | the instructions of every property are appended, property after property, to those already declared |
| MetadataDeclarationHelpers.PropertyInstructionsArePrivate | GDTools/EventsFunctionsExtensionsLoader/MetadataDeclarationHelpers.js:289-320 | every property instruction is private and takes the object then the behavior first |
| MetadataDeclarationHelpers.DeclaredIsPrivate | GDTools/EventsFunctionsExtensionsLoader/MetadataDeclarationHelpers.js:289-320 | the same for the declarations of one property |
| MetadataDeclarationHelpers.PropertyConditionDeclared | GDTools/EventsFunctionsExtensionsLoader/MetadataDeclarationHelpers.js:322-451 | every String, Choice, Number or Boolean property gets its scoped condition among the declarations |
| SkeletonArmature.Corners | GDJSRuntime/Extensions/SkeletonObject/Eskarmature.js:28-32 | the four box corners start at (x, y), and the second minus the first gives the width, the third minus the second the height |
| SkeletonArmature.IndexMapIsLastIndex | GDJSRuntime/Extensions/SkeletonObject/Eskarmature.js:39 | the name map built by assigning each index under its name holds exactly the names seen, each mapped to its last index |
| SkeletonArmature.IndexMapBound | GDJSRuntime/Extensions/SkeletonObject/Eskarmature.js:39 | every index in a name map lies below the number of names assigned |
| SkeletonArmature.ParentsKnownStep | GDJSRuntime/Extensions/SkeletonObject/Eskarmature.js:42-50 | one more known parent extends the known prefix |
| SkeletonArmature.UnknownParent | GDJSRuntime/Extensions/SkeletonObject/Eskarmature.js:44-45 | a single unknown parent name makes the whole data unloadable |
| SkeletonArmature.SharedArmature.constructor | GDJSRuntime/Extensions/SkeletonObject/Eskarmature.js:13-23 | a new shared armature has an empty name and no bones, slots, animations or box, and no root bone (-1) |
| SkeletonArmature.SharedArmature.LoadDragonBones | GDJSRuntime/Extensions/SkeletonObject/Eskarmature.js:25-75 | loading succeeds exactly when every parent and slot bone name is known and the first skin exists and names only known slots; then name, box corners, bones with parent index and child bones and slots, the root bone, slots with bone index and type, animations and every name map are as the data says |
| SkeletonArmature.SharedArmature.LoadBonesAndSlots | GDJSRuntime/Extensions/SkeletonObject/Eskarmature.js:35-60 | bones, parents and slots load exactly when every bone and slot names a known bone, leaving every parent index in range |
| SkeletonArmature.SharedArmature.LoadBones | GDJSRuntime/Extensions/SkeletonObject/Eskarmature.js:35-40 | one parentless, childless bone per data bone, in order, with the name map of last indices |
| SkeletonArmature.SharedArmature.SetBoneParents | GDJSRuntime/Extensions/SkeletonObject/Eskarmature.js:42-50 | parents are set exactly when every parent name is known; each bone then records its parent and the bones after it are appended to their parents in order |
| SkeletonArmature.SharedArmature.SetBoneParent | GDJSRuntime/Extensions/SkeletonObject/Eskarmature.js:43-49 | bone i succeeds exactly when it has no parent or a known one, and then is attached or becomes the root |
| SkeletonArmature.SharedArmature.LoadSlots | GDJSRuntime/Extensions/SkeletonObject/Eskarmature.js:53-60 | slots load exactly when every slot's bone is known; the slots are then listed in order with their bone indices and each bone lists its slots |
| SkeletonArmature.SharedArmature.LoadSlot | GDJSRuntime/Extensions/SkeletonObject/Eskarmature.js:54-59 | slot i loads exactly when its bone name is known, and is then pushed, named and attached to that bone |
| SkeletonArmature.SharedArmature.SkinSlotsExist | GDJSRuntime/Extensions/SkeletonObject/Eskarmature.js:62-66 | the displayers load exactly when there is a first skin and every name in it is a slot's |
| SkeletonArmature.SharedArmature.LoadAnimations | GDJSRuntime/Extensions/SkeletonObject/Eskarmature.js:69-74 | one animation per data animation, in order, with the name map of last indices |
| SkeletonArmature.BonesAtStart | GDJSRuntime/Extensions/SkeletonObject/Eskarmature.js:35-40 | freshly loaded bones are the state before any parent is set |
| SkeletonArmature.AttachStep | GDJSRuntime/Extensions/SkeletonObject/Eskarmature.js:44-45 | setting bone i's parent to j and appending i to j's children extends the parent state by one bone |
| SkeletonArmature.BonesAtComplete | GDJSRuntime/Extensions/SkeletonObject/Eskarmature.js:42-50 | after the last bone every bone holds its parent index and its child bones |
| SkeletonArmature.RootStep | GDJSRuntime/Extensions/SkeletonObject/Eskarmature.js:47-49 | a parentless bone leaves every bone as it was and extends the parent state by one |
| SkeletonArmature.ListedSlotsExactly | GDJSRuntime/Extensions/SkeletonObject/Eskarmature.js:53-57 | the first n pushed slots are slot k with its bone index at each k below n |
| SkeletonArmature.SlotsComplete | GDJSRuntime/Extensions/SkeletonObject/Eskarmature.js:53-60 | after the last slot every slot holds its bone index and every bone its attached slots |
| SkeletonArmature.SlotParentsKnownByIndex | GDJSRuntime/Extensions/SkeletonObject/Eskarmature.js:58 | every slot's bone name is known exactly when every slot's bone index is non-negative |
| SkeletonArmature.ParentIndicesInRange | GDJSRuntime/Extensions/SkeletonObject/Eskarmature.js:44-59 | every bone parent index and slot bone index is -1 or the index of a bone |
| SkeletonArmature.AttachSlotStep | GDJSRuntime/Extensions/SkeletonObject/Eskarmature.js:59 | appending slot i to its bone j extends the attached-slots state by one slot |
| SkeletonArmature.MembersExactly | GDJSRuntime/Extensions/SkeletonObject/Eskarmature.js:42-60 | an index is in a bone's list exactly when that bone owns it, and the list is strictly increasing |
| SkeletonArmature.ChildBonesExactly | GDJSRuntime/Extensions/SkeletonObject/Eskarmature.js:42-50 | bone j is a child of bone k exactly when k is its parent, each child listed once in declaration order |
| SkeletonArmature.ChildSlotsExactly | GDJSRuntime/Extensions/SkeletonObject/Eskarmature.js:53-60 | slot j is listed under bone k exactly when it is attached to k, each once in declaration order |
| SkeletonArmature.RootBoneIsLastRootless | GDJSRuntime/Extensions/SkeletonObject/Eskarmature.js:47-49 | the root bone is -1 exactly when every bone has a parent, and otherwise the last parentless bone |
| SkeletonArmature.ChildrenExactly | GDJSRuntime/Extensions/SkeletonObject/Eskarmature.js:121-133 | node j hangs under k exactly when k owns it, and only bones (or only slots) are hung by one loop |
| SkeletonArmature.ChildrenMirrorMembers | GDJSRuntime/Extensions/SkeletonObject/Eskarmature.js:121-133 | the children hung under k are the shared child lists of k, wrapped, in the same order |
| SkeletonArmature.InstanceTreeMirrorsShared | GDJSRuntime/Extensions/SkeletonObject/Eskarmature.js:114-137 | an instance bone's children are its shared child bones followed by its shared slots, in order |
| SkeletonArmature.SharedParentsAreIndices | GDJSRuntime/Extensions/SkeletonObject/Eskarmature.js:42-60 | the parents a loaded shared armature stores are the data's parent indices |
| SkeletonArmature.AddChild | GDJSRuntime/Extensions/SkeletonObject/Eskarmature.js:123 | addChild appends to bone p's children and leaves every other bone unchanged |
| SkeletonArmature.AttachBoneStep | GDJSRuntime/Extensions/SkeletonObject/Eskarmature.js:121-128 | hanging bone i under its parent (or under the armature when it has none) extends the bone tree by one |
| SkeletonArmature.SlotTreeStart | GDJSRuntime/Extensions/SkeletonObject/Eskarmature.js:130-133 | the full bone tree is the slot tree before any slot |
| SkeletonArmature.AttachSlotToBoneStep | GDJSRuntime/Extensions/SkeletonObject/Eskarmature.js:133 | hanging slot i under its bone extends the slot tree by one |
| SkeletonArmature.RenderersRouting | GDJSRuntime/Extensions/SkeletonObject/Eskarmature.js:166-178 | slot i adds its own renderer exactly when it is an image or mesh, its child armature's exactly when it is an armature, and nothing else is added |
| SkeletonArmature.DebugRenderersRouting | GDJSRuntime/Extensions/SkeletonObject/Eskarmature.js:169-183 | slot i adds its debug renderer exactly when it has one and is an image, mesh or polygon; its child armature's exactly when it is an armature whose child has one |
| SkeletonArmature.FirstFrameCallsExactly | GDJSRuntime/Extensions/SkeletonObject/Eskarmature.js:292-295 | armature animator j, for each j below their count and in order, is started at its first frame with the blend time |
| SkeletonArmature.SwitchCallsShape | GDJSRuntime/Extensions/SkeletonObject/Eskarmature.js:284-298 | a switch resets the state, resets the new animation with the loops, blends from the old one exactly when there is a blend time and an old animation, starts every armature animator and ends with an update by 0 |
| SkeletonArmature.LoadedSlotsExactly | GDJSRuntime/Extensions/SkeletonObject/Eskarmature.js:131-137 | the first n pushed slots are shared slot k, loaded, at each k below n |
| SkeletonArmature.Armature.constructor | GDJSRuntime/Extensions/SkeletonObject/Eskarmature.js:85-102 | a new armature has no shared data, no parts, no renderers, no debug renderer, no current animation (-1) and is not a root |
| SkeletonArmature.Armature.SetAsRoot | GDJSRuntime/Extensions/SkeletonObject/Eskarmature.js:150-155 | a root armature gets a fresh, valid shared armature that is empty apart from its box: no name, no bones, slots or animations, empty name maps and root bone -1; the box is four origin points, so its default size is 0 by 0 |
| SkeletonArmature.Armature.DefaultWidth | GDJSRuntime/Extensions/SkeletonObject/Eskarmature.js:195-197 | the width is the second corner's x minus the first's, and reading it fails exactly when there is no shared data or corner |
| SkeletonArmature.Armature.DefaultHeight | GDJSRuntime/Extensions/SkeletonObject/Eskarmature.js:199-201 | the height is the third corner's y minus the second's, and reading it fails exactly when there is no shared data or corner |
| SkeletonArmature.Armature.LoadData | GDJSRuntime/Extensions/SkeletonObject/Eskarmature.js:105-148 | loading a valid shared armature mirrors its bone tree, slots and animations with their name maps, adds a debug renderer when asked, and sets the renderers in slot order |
| SkeletonArmature.Armature.LoadParts | GDJSRuntime/Extensions/SkeletonObject/Eskarmature.js:113-145 | the bones, slots and animations are loaded from the shared ones |
| SkeletonArmature.Armature.LoadTree | GDJSRuntime/Extensions/SkeletonObject/Eskarmature.js:113-137 | the bones hang under their parents or the armature and the slots under their bones, with both name maps |
| SkeletonArmature.Armature.AddBones | GDJSRuntime/Extensions/SkeletonObject/Eskarmature.js:114-119 | one childless bone per shared bone, in order, with the name map of last indices |
| SkeletonArmature.Armature.AttachBones | GDJSRuntime/Extensions/SkeletonObject/Eskarmature.js:121-128 | every bone hangs under its parent, and the parentless ones under the armature, in order |
| SkeletonArmature.Armature.AttachBone | GDJSRuntime/Extensions/SkeletonObject/Eskarmature.js:122-127 | bone i joins its parent's children, or the armature's own when it has none |
| SkeletonArmature.Armature.AddSlots | GDJSRuntime/Extensions/SkeletonObject/Eskarmature.js:131-137 | every slot hangs under its bone and is loaded and named, in order |
| SkeletonArmature.Armature.AddSlot | GDJSRuntime/Extensions/SkeletonObject/Eskarmature.js:132-136 | slot i hangs under its bone and is loaded, pushed and named |
| SkeletonArmature.Armature.AddAnimations | GDJSRuntime/Extensions/SkeletonObject/Eskarmature.js:140-145 | one loaded animation per shared animation, in order, with the name map of last indices |
| SkeletonArmature.Armature.SetRenderers | GDJSRuntime/Extensions/SkeletonObject/Eskarmature.js:165-189 | the renderers are each slot's, in slot order, and the debug renderers are each slot's followed by the armature's own when it is a root that has one |
| SkeletonArmature.Armature.CurrentAnimation | GDJSRuntime/Extensions/SkeletonObject/Eskarmature.js:226-231 | there is a current animation exactly when the index is in range, and it is that index |
| SkeletonArmature.Armature.IsAnimationFinished | GDJSRuntime/Extensions/SkeletonObject/Eskarmature.js:240-243 | the current animation's finished flag, or false without one |
| SkeletonArmature.Armature.AnimationTime | GDJSRuntime/Extensions/SkeletonObject/Eskarmature.js:245-248 | the current animation's time, or 0 without one |
| SkeletonArmature.Armature.AnimationTimeLength | GDJSRuntime/Extensions/SkeletonObject/Eskarmature.js:257-260 | the current animation's time length, or 0 without one |
| SkeletonArmature.Armature.AnimationFrame | GDJSRuntime/Extensions/SkeletonObject/Eskarmature.js:262-265 | the current animation's frame, or 0 without one |
| SkeletonArmature.Armature.AnimationFrameLength | GDJSRuntime/Extensions/SkeletonObject/Eskarmature.js:274-277 | the current animation's frame length, or 0 without one |
| SkeletonArmature.Armature.AnimationName | GDJSRuntime/Extensions/SkeletonObject/Eskarmature.js:301-304 | the current animation's name, or the empty string without one |
| SkeletonArmature.Armature.Forwarded | GDJSRuntime/Extensions/SkeletonObject/Eskarmature.js:233-238 | one call on the current animation, or none without one |
| SkeletonArmature.Armature.UpdateAnimation | GDJSRuntime/Extensions/SkeletonObject/Eskarmature.js:233-238 | the current animation, if any, is updated by delta, and nothing else happens |
| SkeletonArmature.Armature.SetAnimationTime | GDJSRuntime/Extensions/SkeletonObject/Eskarmature.js:250-255 | the time is set on the current animation, if any, and nothing else happens |
| SkeletonArmature.Armature.SetAnimationFrame | GDJSRuntime/Extensions/SkeletonObject/Eskarmature.js:267-272 | the frame is set on the current animation, if any, and nothing else happens |
| SkeletonArmature.Armature.ResetAnimation | GDJSRuntime/Extensions/SkeletonObject/Eskarmature.js:312-317 | the current animation, if any, is reset without a loop count |
| SkeletonArmature.Armature.SetAnimationIndex | GDJSRuntime/Extensions/SkeletonObject/Eskarmature.js:283-299 | an existing index other than the current one becomes current with the switch calls; any other index changes nothing; afterwards an existing index is current |
| SkeletonArmature.Armature.SetAnimationName | GDJSRuntime/Extensions/SkeletonObject/Eskarmature.js:306-310 | an unknown name changes nothing; a known one switches to the last animation with that name, after which that name is the current animation's |
| SkeletonArmature.DefaultSizeIsBoxSize | GDJSRuntime/Extensions/SkeletonObject/Eskarmature.js:28-32 | an armature whose shared box came from the data reports that box's width and height as its default size |
| SkeletonArmature.NoAnimationDefaults | GDJSRuntime/Extensions/SkeletonObject/Eskarmature.js:240-304 | without a current animation every getter reports its default (false, 0 or the empty string) |

## Left out

- I/O and platform calls are left out. This covers file reads and writes, directory creation and clearing, `fs` copying, `path.resolve`/`relative`/`normalize`, XHR (`sendHttpRequest`), the esbuild and CLI drivers, and downloads. The model reduces them to parameters: whether a copy succeeded, a directory listing, a path function.
- RuntimeFilesList: `path.resolve` is modelled as the plain join `runtimePath + "/" + entry`; unlike the other path functions above, it is not a parameter here, so `..` segments and absolute entries are not resolved.
- Promises and async code are modelled as synchronous calls. This covers `unsplit`'s partial-object fetches and the document step of the export hooks.
- LocalFileSystem.KeepsFileIffEndsWith: upper-casing folds the ASCII letters only, where JavaScript's `toUpperCase` folds all of Unicode. With extension ".É" the source keeps "x.é" and the model drops it.
- LocalFileSystem.ReadDir: the filter inherits the same ASCII-only case folding through `KeepsFile`.
- ObjectSplitter: `split` and `unsplit` are modelled on values. The in-place rewrite of the caller's object and any aliasing between its sub-objects are not captured.
- ObjectSplitter: properties are visited in the order they are stored. JavaScript's `for…in` visits integer-like keys first, and the model does not capture that.
- NetworkTools.VariableToJson: children are serialised in the order they are stored. The source's `for…in` puts integer-like names first, so a structure given the children "b" then "0" is written with "0" first; `ToJson` and `MembersText` share this.
- NetworkTools.WriteMembers: the properties of a parsed object are written in the order they are stored, not with integer-like keys first as `for…in` visits them; this only matters for which child gets created first.
- ObjectSplitter.UnsplitValue: a `fuel` count bounds how many references may be followed one inside another. The source has no bound and would loop forever on a cyclic lookup. The round trip is proved for fuel of at least the split object's height.
- ObjectSplitter: `getSlugifiedUniqueNameFromProperty` calls functions that the source never defines, so it is not modelled.
- NetworkTools: variables are values. `gdjs.Variable` is not part of this model, so `getChild` is assumed to create a missing child and make the variable a structure.
- NetworkTools.StringsAndNumbers: `setNumber` is assumed to convert its argument like JavaScript's `Number` ("12" gives 12, and for the as-written half `[5]` gives 5). `gdjs.Variable` is not part of this model.
- NetworkTools: JavaScript number printing and parsing are the `JsNumbers` parameter, and `JSON.parse` is a parameter of `JsonToVariableStructure`.
- NetworkTools.ObjectToVariable: after a throw the contract states only that no child was removed. Which children were written before the throw is left open.
- NetworkTools.JsonToVariableStructure: the same holds for a false result after a partial write.
- NetworkTools.WrittenAsWritten: the write as written (the number test before the array test) is modelled for what it stores only. Where it throws is stated for the corrected order, through `ThrowsIn`.
- NetworkTools: the `objectVariableStructureToJSON` and `jsonToObjectVariableStructure` wrappers only forward to the modelled functions, so they are not modelled.
- P2PTools: the PeerJS connection lifecycle is left out, because it is network code over an external library. This covers `_loadPeerJS`, `connect`, the disconnect poller, the `send*` functions, `useCustomBrokerServer`, `useDefaultBrokerServer`, `getCurrentId`, `isReady`, `getLastError` and `getEventVariable`. Connections are modelled as a set of peer ids.
- Gd: `random` and its range and float variants, `toRad` and `toDegrees` are left out, because they depend on randomness and floating point.
- Gd: `staticArray2` and `staticObject` are left out, because they repeat `staticArray`'s pattern on another field of the owner.
- Gd: the deprecated `registerGlobalCallbacks` is left out, because it only logs a warning.
- Gd.Registry.constructor: the model's registries start with the base object and behavior under the `""` name. Runtime/gd.js:11-13 starts them empty, and other runtime files, not part of this model, register those entries.
- Gd.RgbToHexNumber: channels are required to lie in 0..255. Outside that range the source's 32-bit shifts and additions (Runtime/gd.js:53) would mix channels or go negative, and the model does not capture that.
- Gd.RgbToHex: the same 0..255 requirement holds, for the same shifts and additions at Runtime/gd.js:42.
- Gd.JsArray: `remove` and `createFrom` state the new contents of one array. Other references to the same array are not modelled.
- SceneStack: `onGameResolutionResized` is left out, because it only forwards to the scenes' renderers.
- SceneStack: a scene is reduced to its name, status, external layout, render count and requested change, and the game to whether it stopped and its external layout names. `loadFromScene`, the scenes' own logic and events, and their renderers are not part of this model.
- SceneStack.RuntimeScene.Render: rendering is recorded as a counter of frames, without drawing.
- EventsFunctionsLoader: `mangleName` is a function parameter, because `caseSensitiveSlug` is not part of this model. The async code generation and loading functions are left out.
- MetadataDeclarationHelpers: the `gd.*` metadata objects are records holding the names, texts, parameters, flags and generated-code names that the helpers set. The icon image paths are left out.
- MetadataDeclarationHelpers.BehaviorContent.UpdateProperty: the behavior content is a map from names to elements, so `addChild` replaces a child of the same name. `gd.SerializerElement` is not part of this model, and `UpdateThenGetProperties`, `UpdateStoresLast` and `InitializeStoresLast` depend on this.
- MetadataDeclarationHelpers: `isExtensionLifecycleEventsFunction` is left out, because it only forwards to `gd.EventsFunctionsExtension`, which is not part of this model.
- SkeletonArmature: the bone, slot, animation, transform and renderer internals are not part of this model.
  - Loading a slot is a function parameter that reports which debug renderers it produced.
  - Loading an animation is a function parameter that reports its playback state.
  - The calls an armature makes on its animations are recorded as a list.
- SkeletonArmature: these operations are left out:
  - `getAABB`, `update` and the transform matrices, because they are floating point;
  - `resetState` and `updateZOrder`, which only forward to parts and renderers that are not modelled (`resetState` appears as a recorded call);
  - `getRenderer`, `getRendererObject` and `getAnimationIndex`, which only return a field.
- SkeletonArmature.SharedArmature.LoadDragonBones: it returns false exactly where the source throws, and the partly loaded state after a failure is left open. The slots' and animations' own DragonBones parsing (`loadDragonBonesSlotData`, `loadDragonBonesSkinData` and the animation loader) is not part of this model.
- SkeletonArmature: the instance name maps hold indices where the source stores the objects. `setAnimationName` looks its index up with `indexOf`, which gives the same index.

## Findings

| source | as written | input that shows it | evidently intended | confidence | as-written member | corrected member |
|---|---|---|---|---|---|---|
| src/plugins.js:23 | the early return tests `documentCallbacks.size === 0`, but arrays have no `size`, so it never fires | no registered document callback: index.html is still read, parsed and written back | skip the document when the list is empty (`length === 0`); the same test at lines 92 and 103 only affects logging | high, not executed | Plugins.EmptyDocumentStillRewritten | Plugins.RunDocument |
| src/plugins.js:52-59 | `typeof plugin !== "object"` lets `null` through, and reading `plugin.options` then throws | `registerPlugin(null)` | reject null like any other non-object; the constructor-result test at lines 77-82 has the same gap | high, not executed | Plugins.NullPluginThrows | Plugins.PluginCallbacks |
| Runtime/events-tools/networktools.js:83-93 | the `!isNaN(obj)` test comes before `Array.isArray`, so a one-number array passes it | `[5]` is stored as the number 5 (and `[]` as 0) instead of a structure with child "0" | test arrays before numbers, so every array becomes children "0".."n-1" | medium, not executed | NetworkTools.NumericArrayAsWritten | NetworkTools.ObjectToVariable |
| GDTools/ObjectSplitter.js:104-125 | `isReference` reads the magic property of every child, including null ones | `unsplit({a: null})` throws a TypeError, though `split` leaves `{a: null}` unchanged | skip null children as `split` does, so the round trip holds for every object | high, not executed | ObjectSplitter.NullPropertyAsWritten | ObjectSplitter.SplitThenUnsplit |
