# qgis_plutil core, modelled in Dafny

This project models five pieces of logic from the `qgis_plutil` helper library for QGIS plugins. Dafny proves what each piece promises. The QGIS, Qt and Flask objects those pieces talk to become small records, classes and parameters.

1. **Thread/GUI handshake** (`thread_support/`), modules `Side`, `Messages` and `ThreadSupport`.
   - `ThreadSide` and `GuiSide` are classes whose `state` fields move between DISCONNECTED, CONNECTING and CONNECTED.
   - The Qt signal between the two sides is the FIFO `ThreadSide.pending`. `GuiSide.DeliverNext` hands its oldest entry to `receiver`.
   - Messages take their ids from a shared counter object (`IdGenerator`). The message hooks write to a `Log` object.
   - The function `Receive` is `receiver`'s transition table. `Run` delivers a whole queue, and lemmas about `Run` prove FIFO delivery, the Hello-first handshake and that the state never falls.
   - `GuiSide.DeliverAll` is the event loop draining the queue turn by turn. It is proved to hand `message_accepted` exactly what `Run` delivers, so the lemmas about `Run` hold of the classes.
   - An exception escaping `receiver` aborts the application: PyQt5 5.5 and later call `qFatal` on an unhandled exception in a slot. So `Run` and `DeliverAll` stop at the first failure. A single `DeliverNext` is one turn of the loop; nothing in the model calls it again after a failure.
2. **Bounded message table of `HttpServer`** (`http_server/`), modules `OrderedMaps` and `HttpApi`.
   - An `OrderedDict` is a sequence of keys plus a map from key to value.
   - `popitem()` removes the newest key.
   - `HttpServer.MessageAccepted` keeps its `while` loop, proved against the function `Stored`.
   - Lemmas about `Stored`:
     - the table stays within the limit;
     - the table is the oldest entries of the assigned table;
     - a full table ignores a message with a new id;
     - a known id is replaced in place;
     - the other entries never change.
3. **Field-schema inference** (`utils/attributes.py`), module `Attributes`.
   - A row is a dict (its items in iteration order), a list/set/tuple (its elements) or anything else.
   - A value is known by its class name, and a field is a (name, type tag) pair.
   - `FieldsFromData` keeps the loops of `fields_from_data` and is proved equal to the function `Infer`.
   - Lemmas about `Infer` characterise when it succeeds, what `are_dicts` is, that first type wins, first-appearance order, `Field n` naming and the ValueError cases.
4. **Legend tree** (`utils/legend.py`), module `Legend`.
   - The layer tree is a `Node` datatype held in a `LegendTree` class. A group is addressed by its position, a sequence of child indices.
   - `findGroup` is a function parameter, assumed to return a group of the requested name below the parent, or nothing.
   - `get_group`, `get_path`, `all_layers`, `all_layers_with_name` and the lookup part of `get_layer` are methods, each proved against a function. `locate_own_layer` is the function `LocateOwnLayer`.
   - `get_layer` ends in a call of `add_layer_to_legend` for a new layer. The model returns the group it passes, and `TargetGroupAsWritten` says where that call puts the layer (see Findings).
5. **Layer validator `check_layer`** (`utils/layer.py`), module `LayerCheck`.
   - A map layer is a class with the attributes the checks read, plus a `startEditing()` method that can change it.
   - `CheckLayer` keeps the `while True: … break` structure as a labelled block.
   - It is proved against the function `Verdict`. Lemmas show that `Verdict` reports the first failing check of a fixed order.
   - The vector test is a parameter `t`: `AsWritten` is the code of layer.py:111 as it stands, `Intended` compares the layer's own type (see Findings).

`Wrappers` holds `Option` and `Result`. `Strings` holds `str()` of integers, `str.split` and `"/".join`, each with its injectivity or round-trip lemma.

Two facts about the source shape the model:
- `popitem()` drops the newest entry (qgis_plutil/http_server/api.py:74), so a new message arriving at a full table is lost.
- The Hello that completes the handshake is still passed to `message_accepted` (qgis_plutil/thread_support/gui_side.py:53-55).

## Model

| member | source | states |
|---|---|---|
| Side.InitialState | qgis_plutil/thread_support/side.py:35 | a new side's state is DISCONNECTED |
| Side.ThreeStates | qgis_plutil/thread_support/side.py:23-25 | there are exactly three states, 1, 2 and 3, all distinct |
| Messages.GuiDirective | qgis_plutil/thread_support/messages/base.py:49-52 | a directive other than None comes only from an application subclass, and is that subclass's own directive; every class of the core answers None |
| Messages.IdGenerator.constructor | qgis_plutil/thread_support/messages/base.py:14 | the id counter starts at 1 |
| Messages.TsMessage.Plain | qgis_plutil/thread_support/messages/base.py:31-34 | a message takes the counter's value as its id, and the counter grows by exactly one |
| Messages.TsMessage.Hello | qgis_plutil/thread_support/messages/hello.py:23-30 | a HelloMessage takes exactly one id, as any message does |
| Messages.TsMessage.Http | qgis_plutil/http_server/message.py:27-33 | an HttpMessage takes its id first, then gets `result_type` 'Error' (one of the documented 'Error'/'OK') and `result_data` None |
| Messages.TsMessage.Custom | qgis_plutil/thread_support/messages/base.py:31-34 | an application subclass takes one id, and gets the HttpMessage fields when it derives from HttpMessage |
| Messages.TsMessage.OnThreadSide | qgis_plutil/thread_support/messages/base.py:44-47 | the hook writes one trace record and changes nothing else |
| Messages.TsMessage.OnGuiSide | qgis_plutil/thread_support/messages/base.py:49-52 | the hook writes one trace record, changes nothing else and returns the class's directive |
| Messages.ConsecutiveIds | qgis_plutil/thread_support/messages/base.py:33-34 | two messages built one after the other get consecutive, strictly increasing ids |
| ThreadSupport.Receive | qgis_plutil/thread_support/gui_side.py:46-60 | an accepted message always leaves the side CONNECTED |
| ThreadSupport.ReceiveTable | qgis_plutil/thread_support/gui_side.py:48-60 | DISCONNECTED fails an assertion; CONNECTING accepts exactly a Hello with a tied thread side; CONNECTED accepts exactly when a thread side is tied; ValueError exactly for a value outside the three states |
| ThreadSupport.ReceiveMonotone | qgis_plutil/thread_support/gui_side.py:47-60 | from a legitimate state, `receiver` never lowers the state, never leaves the three constants, and fails only by assertion |
| ThreadSupport.Run | qgis_plutil/thread_support/gui_side.py:46-60 | a run never delivers more messages than were queued; what it delivers, and in which order, is stated by the lemmas below |
| ThreadSupport.RunAfterStep | qgis_plutil/thread_support/gui_side.py:46-60 | one more message of a run: accepted, it joins the delivered ones and the run goes on from the new state; failed, the run ends there with that failure |
| ThreadSupport.RunDeliversPrefix | qgis_plutil/thread_support/gui_side.py:46-60 | the messages reaching `message_accepted` are a prefix of the queue, in order, with none lost or repeated, and the whole queue unless a failure stopped delivery |
| ThreadSupport.RunConnected | qgis_plutil/thread_support/gui_side.py:56-58 | once CONNECTED, every queued message is delivered in order and the state stays CONNECTED |
| ThreadSupport.RunHandshake | qgis_plutil/thread_support/gui_side.py:50-58 | a tied side in CONNECTING whose queue starts with a Hello delivers the whole queue, Hello first, and ends CONNECTED |
| ThreadSupport.RunHelloFirst | qgis_plutil/thread_support/gui_side.py:48-52 | nothing is delivered before a Hello; a queue not starting with a Hello fails at once; in DISCONNECTED every message fails |
| ThreadSupport.RunStateRises | qgis_plutil/thread_support/gui_side.py:47-60 | along any run the state only rises and stays one of the three constants |
| ThreadSupport.ThreadSide.constructor | qgis_plutil/thread_support/thread_side.py:36-37 | a new thread side is DISCONNECTED, has no GUI side and has emitted nothing |
| ThreadSupport.ThreadSide.SendToGui | qgis_plutil/thread_support/thread_side.py:57-62 | `on_thread_side` runs exactly once, then this very message is queued behind every earlier emission (it reaches nobody before `tie`) |
| ThreadSupport.ThreadSide.ThreadSideStarted | qgis_plutil/thread_support/thread_side.py:47-55 | the state becomes CONNECTING and exactly one fresh HelloMessage is sent |
| ThreadSupport.GuiSide.constructor | qgis_plutil/thread_support/gui_side.py:31-32 | a new GUI side is DISCONNECTED with no thread side |
| ThreadSupport.GuiSide.Serving | qgis_plutil/http_server/api.py:39 | the GuiSide part of an HttpServer starts the same way and answers to the HttpServer's `message_accepted` |
| ThreadSupport.GuiSide.Tie | qgis_plutil/thread_support/gui_side.py:62-72 | the sides are linked both ways and the GUI side is CONNECTING |
| ThreadSupport.GuiSide.MessageAccepted | qgis_plutil/thread_support/gui_side.py:42-44 | `on_gui_side` runs exactly once; for an HttpServer the table becomes `AfterAccept` of the old one |
| ThreadSupport.GuiSide.Receiver | qgis_plutil/thread_support/gui_side.py:46-60 | the step is `Receive`'s; on acceptance both sides are CONNECTED and the message went to `message_accepted` once; on failure nothing changed |
| ThreadSupport.GuiSide.DeliverOne | qgis_plutil/thread_support/thread_side.py:62 | the oldest queued emission leaves the queue and goes to `receiver` with `Receive`'s step; accepted, both sides are CONNECTED, the trace gains one record and an HttpServer's table becomes `AfterAccept`; failed, nothing else changes |
| ThreadSupport.GuiSide.DeliverNext | qgis_plutil/thread_support/thread_side.py:62 | the oldest queued emission is removed and passed to `receiver`; nothing happens when no side is tied or nothing is queued |
| ThreadSupport.GuiSide.DrainStep | qgis_plutil/thread_support/gui_side.py:46-60 | one turn of the drain: accepted, the drain is one message further along the same run; failed, the run ends in the current state with that failure |
| ThreadSupport.GuiSide.DeliverAll | qgis_plutil/thread_support/gui_side.py:46-60 | draining the queue until it is empty or an exception aborts hands `message_accepted` exactly what `Run` delivers, ends in `Run`'s state with its failure, takes the delivered messages and the failing one off the queue and leaves the rest, logs one record per delivered message, and leaves an HttpServer's table as `AcceptAll` of the delivered messages |
| ThreadSupport.HandshakeScenario | tests/integration/thread_support/test_run.py:50-87 | one concrete scenario, not a general property: tie, start and two deliveries leave both sides CONNECTED, with each hook run once per message, in order |
| OrderedMaps.SizeIsKeyCount | qgis_plutil/http_server/api.py:71 | `len()` of a valid table is its number of keys |
| OrderedMaps.Empty | qgis_plutil/http_server/api.py:52 | `OrderedDict()` is a valid, empty table |
| OrderedMaps.Assign | qgis_plutil/http_server/api.py:68 | `d[k] = v`: a new key goes to the end; an existing key keeps its position; only `k`'s value changes |
| OrderedMaps.PopItem | qgis_plutil/http_server/api.py:74 | `popitem()` removes the last-inserted key; the other keys keep their order and values |
| OrderedMaps.Trim | qgis_plutil/http_server/api.py:71-74 | the popping loop ends with at most `limit` entries |
| OrderedMaps.PrefixOfPop | qgis_plutil/http_server/api.py:74 | dropping the newest entry leaves every shorter prefix as it was |
| OrderedMaps.TrimKeepsOldest | qgis_plutil/http_server/api.py:71-74 | trimming keeps exactly the `limit` oldest entries |
| HttpApi.Key | qgis_plutil/http_server/api.py:68 | the key is `str(message_id)`, a non-empty numeral |
| HttpApi.KeyInjective | qgis_plutil/http_server/api.py:68 | distinct ids give distinct keys |
| HttpApi.Stored | qgis_plutil/http_server/api.py:68-74 | the stored table is valid and holds at most `limit` entries |
| HttpApi.StoredIsOldestPrefix | qgis_plutil/http_server/api.py:71-74 | the stored table is the oldest entries of the table after assignment |
| HttpApi.StoredFullTableUnchanged | qgis_plutil/http_server/api.py:71-74 | a message with a new id arriving at a full table leaves the table exactly as it was |
| HttpApi.StoredReplacesInPlace | qgis_plutil/http_server/api.py:68-71 | an id already present has its value replaced, keeps its position, and nothing is evicted |
| HttpApi.StoredAppends | qgis_plutil/http_server/api.py:68-71 | below the limit, a new id is added at the end and nothing is evicted |
| HttpApi.StoredKeepsOthers | qgis_plutil/http_server/api.py:68-74 | other entries keep their values and relative insertion order; nothing new appears except the message itself, stored under its key |
| HttpApi.AfterAccept | qgis_plutil/http_server/api.py:66-74 | only ADD_TO_QUEUE changes the table, and then its size stays within the limit |
| HttpApi.AcceptAll | qgis_plutil/http_server/api.py:64-74 | a series of `message_accepted` calls keeps the table valid, keeps it within the limit once it is within it, and leaves it untouched when no message asks to be queued |
| HttpApi.AcceptAllAppend | qgis_plutil/http_server/api.py:64-74 | one more call applies `AfterAccept` to the table so far |
| HttpApi.HttpServer.Bounded | qgis_plutil/http_server/api.py:71-74 | a bounded table holds at most `messages_limit` entries, counted as `len()` counts them |
| HttpApi.HttpServer.constructor | qgis_plutil/http_server/api.py:52-53 | a new server has an empty table and a limit of 100 |
| HttpApi.HttpServer.MessageAccepted | qgis_plutil/http_server/api.py:64-74 | `on_gui_side` runs once; the table after the `while` loop is `AfterAccept` of the old one; the size bound is kept |
| Strings.NatToString | qgis_plutil/http_server/api.py:68 | `str()` of a natural number is a non-empty string of decimal digits without a leading zero |
| Strings.IntToString | qgis_plutil/http_server/api.py:68 | `str()` of an integer starts with '-' exactly when the integer is negative |
| Strings.NatToStringInjective | qgis_plutil/http_server/api.py:68 | distinct natural numbers have distinct decimal forms |
| Strings.IntToStringInjective | qgis_plutil/http_server/api.py:68 | distinct integers have distinct decimal forms |
| Strings.Split | qgis_plutil/utils/legend.py:39 | `str.split(sep)` gives at least one part, none containing `sep` |
| Strings.JoinSplit | qgis_plutil/utils/legend.py:39 | joining the parts of a split with the separator gives back the string |
| Strings.JoinSeparators | qgis_plutil/utils/legend.py:39 | the inverse of `split` holds the separator when there are two or more parts, and, when no part holds it, only then |
| Strings.SplitJoin | qgis_plutil/utils/legend.py:39 | splitting a join of separator-free parts gives back the parts |
| Attributes.ClassToTypeTable | qgis_plutil/utils/attributes.py:15-19 | `class_to_type` has exactly the keys "float", "int" and "str", mapped to Double, Int and String |
| Attributes.VariantCtorForObject | qgis_plutil/utils/attributes.py:15-29 | float, int and str map to Double, Int and String; exactly the other classes raise NotImplementedError |
| Attributes.FieldNameInjective | qgis_plutil/utils/attributes.py:68-69 | distinct positions give distinct "Field n" names |
| Attributes.Numbered | qgis_plutil/utils/attributes.py:68-69 | element i (0-based) of a sequence row is named "Field i+1" |
| Attributes.AddItem | qgis_plutil/utils/attributes.py:54-58 | a name already present leaves the fields as they are; a new name is added, or raises exactly when its value's class is unknown |
| Attributes.AddAll | qgis_plutil/utils/attributes.py:52-58 | the inner loop only appends to the fields built so far, and fails only with NotImplementedError |
| Attributes.AddAllFailureSticks | qgis_plutil/utils/attributes.py:57-58 | the first NotImplementedError ends the inner loop |
| Attributes.InferFailureSticks | qgis_plutil/utils/attributes.py:44-75 | the first exception ends the inference |
| Attributes.StepRow | qgis_plutil/utils/attributes.py:45-75 | a row that is neither a dict nor a list/set/tuple raises ValueError; on success `are_dicts` records the row's kind and the old fields are kept as a prefix |
| Attributes.Infer | qgis_plutil/utils/attributes.py:42-76 | on success `are_dicts` is None exactly for no rows, and otherwise records the kind of the last row |
| Attributes.AreDictsOf | qgis_plutil/utils/attributes.py:43-47 | None exactly for no rows; on uniform data, the kind every row has |
| Attributes.InferFailsAt | qgis_plutil/utils/attributes.py:44-75 | the first row whose turn raises decides the result |
| Attributes.AddItems | qgis_plutil/utils/attributes.py:52-58 | the inner `for` loop computes `AddAll` |
| Attributes.AddRow | qgis_plutil/utils/attributes.py:45-75 | one turn of the outer loop computes `StepRow` |
| Attributes.FieldsFromData | qgis_plutil/utils/attributes.py:32-76 | the loop over the rows returns or raises exactly what `Infer` says |
| Attributes.InferUniform | qgis_plutil/utils/attributes.py:42-76 | on all-dict or all-sequence data the result is one pass over all named items, with `are_dicts` None, True or False as the data is empty, dicts or sequences |
| Attributes.InferSuccessIsUniform | qgis_plutil/utils/attributes.py:45-67 | a successful inference means uniform data, and `are_dicts` is what the data determines |
| Attributes.InferCharacterised | qgis_plutil/utils/attributes.py:32-76 | the inference succeeds exactly on uniform data whose values all have known types, and then returns the reference result |
| Attributes.InferMixedIsValueError | qgis_plutil/utils/attributes.py:45-67 | a dict row after sequence rows, a sequence row after dict rows, or a row of another kind raises ValueError |
| Attributes.StepRowMismatch | qgis_plutil/utils/attributes.py:48-51 | a row of the other kind than those seen is refused with ValueError |
| Attributes.FirstIndex | qgis_plutil/utils/attributes.py:54 | the position of a name's first appearance |
| Attributes.AddAllFirstWins | qgis_plutil/utils/attributes.py:54-58 | the fields have distinct names, exactly the names seen, each typed by its first occurrence and listed in order of first appearance |
| Attributes.AddNumbered | qgis_plutil/utils/attributes.py:68-75 | adding a sequence row to fields "Field 1".."Field n" gives "Field 1".."Field max(n, len)" |
| Attributes.InferSequenceNames | qgis_plutil/utils/attributes.py:60-75 | sequence rows give fields "Field 1".."Field n", n the longest row's length |
| Attributes.MissingItemsFilters | qgis_plutil/utils/attributes.py:84-87 | exactly the items of `fields` whose key the provider lacks are kept, so their keys are the missing ones, and distinct keys stay distinct |
| Attributes.MissingItemsConcat | qgis_plutil/utils/attributes.py:84-87 | the kept items keep the order of `fields` |
| Attributes.Values | qgis_plutil/utils/attributes.py:85 | `fields[field_name]` for each kept key, one per item, in order |
| Attributes.DataProvider.AddAttributes | qgis_plutil/utils/attributes.py:84 | each call is recorded with its argument |
| Attributes.VectorLayer.UpdateFields | qgis_plutil/utils/attributes.py:89 | each call is counted |
| Attributes.MergeFieldsInProvider | qgis_plutil/utils/attributes.py:79-89 | exactly one `addAttributes` call, with the fields stored under the keys the provider lacks, in order (possibly none), and `updateFields` exactly when a layer is given |
| Legend.AddChild | qgis_plutil/utils/legend.py:60 | `addGroup` appends the child to the group at the position and keeps the root a group |
| Legend.AddChildPlacesChild | qgis_plutil/utils/legend.py:60 | the new child sits at the end of the parent's children |
| Legend.AddChildElsewhere | qgis_plutil/utils/legend.py:60 | every node that is not an ancestor of the parent is unchanged |
| Legend.FoundOrAdded | qgis_plutil/utils/legend.py:48-61 | the result is a group with the requested name, below the parent |
| Legend.GetGroupFindsOrAdds | qgis_plutil/utils/legend.py:58-61 | what `findGroup` finds is returned with the tree unchanged; otherwise a new empty group of that name is appended to the parent |
| Legend.PathStringParts | qgis_plutil/utils/legend.py:38-39 | a string path splits into parts free of "/" that join back into the string |
| Legend.FalsyPathParts | qgis_plutil/utils/legend.py:238 | a falsy `default_group` leaves nothing to walk but an empty part; a truthy one names at least one part |
| Legend.Walk | qgis_plutil/utils/legend.py:38-45 | each step goes one or more levels down, and the last group reached has the last part's name |
| Legend.WalkStep | qgis_plutil/utils/legend.py:41-43 | one more part is one more `get_group` from where the walk stood |
| Legend.WalkEmpty | qgis_plutil/utils/legend.py:36-37 | with no parts, the tree and the parent are returned unchanged |
| Legend.WalkConcat | qgis_plutil/utils/legend.py:41-43 | walking `a + b` is walking `a`, then `b` from its end |
| Legend.CollectLayers | qgis_plutil/utils/legend.py:95-100 | the recursive `do_a_group` appends the layers below the group to `result` |
| Legend.LayersInAreDescendantLayers | qgis_plutil/utils/legend.py:95-100 | the layers collected are the descendants in depth-first order, groups removed |
| Legend.AllLayersAreDescendantLayers | qgis_plutil/utils/legend.py:94-103 | `all_layers` is every layer node of the subtree, depth first in children order, and never a group |
| Legend.NamedLayersAreFiltered | qgis_plutil/utils/legend.py:115-125 | `all_layers_with_name` is `all_layers` filtered by name, in the same order |
| Legend.NamedLayersAreLayersNamed | qgis_plutil/utils/legend.py:115-125 | `all_layers_with_name` returns exactly the layer nodes of the subtree with the name |
| Legend.CollectLayersNamed | qgis_plutil/utils/legend.py:116-122 | the recursive `do_a_group` appends the layers below the group with that name |
| Legend.WithNameMembers | qgis_plutil/utils/legend.py:121 | a node is kept exactly when it has the name |
| Legend.WithName | qgis_plutil/utils/legend.py:121 | filtering by name never lengthens the sequence |
| Legend.SearchFrom | qgis_plutil/utils/legend.py:129-133 | the first direct layer child from a position on with the name, or None when there is none |
| Legend.LocateOwnLayer | qgis_plutil/utils/legend.py:127-133 | the first direct layer child with the name; groups are never entered; None when there is none |
| Legend.NonEmpty | qgis_plutil/utils/legend.py:214 | exactly the parts that are not empty are kept |
| Legend.Components | qgis_plutil/utils/legend.py:214 | the components of a name are non-empty and free of '/' |
| Legend.ComponentsOfJoin | qgis_plutil/utils/legend.py:214 | a '/'-join of non-empty components splits back into those components |
| Legend.Resolve | qgis_plutil/utils/legend.py:203-249 | the tree stays a group; on an error it is unchanged; a new layer's chosen group is a group of the new tree |
| Legend.ResolveErrors | qgis_plutil/utils/legend.py:203-211 | AssertionError exactly for a None name, ValueError exactly for an empty name with no current layer; an empty name otherwise gives the current layer |
| Legend.ResolvePath | qgis_plutil/utils/legend.py:216-224 | with several components, the leading ones are walked, only that group's direct children are searched, and a new layer is made exactly when none has the last component's name |
| Legend.ResolveSingle | qgis_plutil/utils/legend.py:225-255 | a single name is searched in the whole tree, then in the fallback; AttributeError exactly when the tree has no layer of that name and the first fallback entry is None; a layer is new exactly when both are empty, with the default group chosen exactly when it is truthy |
| Legend.TargetGroupAsWritten | qgis_plutil/utils/legend.py:159-166 | `add_layer_to_legend` puts the layer in the group it is given, and raises AttributeError exactly for `group=None` |
| Legend.TargetGroup | qgis_plutil/utils/legend.py:195-197 | as documented, no group means the top level |
| Legend.AsWrittenTopLevelLayerFails | qgis_plutil/utils/legend.py:235-249 | a single name found nowhere, with no fallback and a falsy default group, reaches `add_layer_to_legend(group=None)`, which raises AttributeError |
| Legend.NewLayerTargetIsGroup | qgis_plutil/utils/legend.py:195-197 | as documented, every new layer has a group of the resulting tree to go to, the root when none was chosen |
| Legend.LegendTree.AddGroup | qgis_plutil/utils/legend.py:60 | the tree gains one empty group at the end of the parent's children |
| Legend.LegendTree.GetGroup | qgis_plutil/utils/legend.py:48-61 | the tree and result are those of `FoundOrAdded` |
| Legend.LegendTree.GetPath | qgis_plutil/utils/legend.py:18-45 | the loop computes `Walk` over the path's parts from the parent (the root when None) |
| Legend.LegendTree.AllLayers | qgis_plutil/utils/legend.py:84-103 | returns the layers below the parent (the root when None) |
| Legend.LegendTree.AllLayersWithName | qgis_plutil/utils/legend.py:105-125 | returns the layers below the parent with the name, which is `all_layers` filtered |
| Legend.LegendTree.GetLayer | qgis_plutil/utils/legend.py:174-257 | the tree and result are those of `Resolve` |
| Legend.LegendTree.GetLayerInPath | qgis_plutil/utils/legend.py:216-224 | for a name with several components, the tree and result are those of `Resolve` |
| Legend.LegendTree.GetLayerByName | qgis_plutil/utils/legend.py:225-255 | for a single name, the tree and result are those of `Resolve` |
| LayerCheck.MapLayer.StartEditing | qgis_plutil/utils/layer.py:143 | on success the layer is being edited; each call is counted |
| LayerCheck.AsWrittenVectorTestNeverFails | qgis_plutil/utils/layer.py:111 | as written, the vector test fails for no layer |
| LayerCheck.AsWrittenAcceptsRasterLayer | qgis_plutil/utils/layer.py:111 | a raster layer passes the written vector test and fails the intended one |
| LayerCheck.Verdict | qgis_plutil/utils/layer.py:101-151 | "Needs an active layer" is logged exactly when there is no layer |
| LayerCheck.AttemptsStart | qgis_plutil/utils/layer.py:142-146 | when `startEditing()` is called, the only message left to log is "The layer is not editable" |
| LayerCheck.AsWrittenIgnoresVectorFlag | qgis_plutil/utils/layer.py:111 | as written, the check behaves as the intended one with `vector` off |
| LayerCheck.AsWrittenCheckAcceptsRasterLayer | qgis_plutil/utils/layer.py:107-151 | with only `vector` set, a valid raster layer passes the check as written and is refused with "Needs a vector layer" as intended |
| LayerCheck.VectorCheckStopsOtherLayers | qgis_plutil/utils/layer.py:111-113 | with the intended test, a valid layer of any type other than VectorLayer is stopped with "Needs a vector layer" when `vector` is set |
| LayerCheck.FirstFailingIsFirst | qgis_plutil/utils/layer.py:101-146 | the search finds nothing exactly when no check fails, else a failing check with none failing before it |
| LayerCheck.EditChecksAreFirstFailing | qgis_plutil/utils/layer.py:123-146 | the polygon and edit checks of the if-chain are the first failing check from the polygon check on |
| LayerCheck.VerdictIsFirstFailing | qgis_plutil/utils/layer.py:107-146 | the if-chain logs the message of the first failing check in the fixed order |
| LayerCheck.VerdictPassesIffNoCheckFails | qgis_plutil/utils/layer.py:101-151 | a layer passes exactly when no requested check fails; otherwise the logged message is that of a failing check no earlier check preempts |
| LayerCheck.NoLayerNeedsActiveLayer | qgis_plutil/utils/layer.py:103-105 | with no layer, "Needs an active layer" is the result |
| LayerCheck.NoChecksPassAnyLayer | qgis_plutil/utils/layer.py:107-148 | with every flag off, any layer passes |
| LayerCheck.GeometryIsExact | qgis_plutil/utils/layer.py:115-125 | a requested geometry check fails on every code other than exactly Point, LineString or Polygon |
| LayerCheck.MustEditGatesEditChecks | qgis_plutil/utils/layer.py:127-146 | without `must_edit` no capability or editability message appears and `startEditing()` is never called |
| LayerCheck.EditabilityCheck | qgis_plutil/utils/layer.py:142-146 | a layer not being edited passes when `start_edit` is off, and otherwise exactly when `startEditing()` succeeds |
| LayerCheck.CheckLayer | qgis_plutil/utils/layer.py:56-151 | for either reading of the vector test, the result is the layer itself (the current layer when None is given) or None, logged is one message or nothing, as `Verdict` says; `startEditing()` is called exactly when `AttemptsStart` holds |

## Left out

- Concurrency: `messages_lock`, cross-thread delivery and interleavings are not modelled. Each operation runs to completion, and the Qt signal is a FIFO queue.
- Qt wiring (`pyqtSignal`, `connect`, `QObject`) is reduced to `ThreadSide.pending` and `GuiSide.DeliverNext`. Emissions made before `tie` connects a slot are dropped.
- Logging: the TRACE records of the message hooks are modelled as `Log` records. The debug records of `HttpServer.message_accepted` and `get_layer`, and `plugin.tr`, are not modelled.
- `ADD_TO_QUEUE` and `DONT_ADD_TO_QUEUE` are not defined in `qgis_plutil/constants.py`. They are abstract `Directive` values here.
- ThreadSupport.GuiSide.Receiver: `isinstance(message, HelloMessage)` also accepts subclasses of HelloMessage. The model knows no such subclass, so only messages built as a Hello count.
- HttpApi.HttpServer.MessageAccepted: `messages_limit` is a natural number. With a negative limit the Python loop would pop the table empty and then raise `KeyError`; the model does not cover that case.
- `HttpServer.start`/`stop`, the routes, the Flask application and `ServerThread` are network I/O and are not modelled.
- `fields_from_data` with data that is not iterable raises TypeError from Python's `for`. The model takes the data as a sequence of rows. A string as data is a sequence of rows of another kind, which gives ValueError, as in the source.
- Dict keys become strings with `str()` before the model sees them, and a value is known only by its class name. `QgsField` is a (name, type tag) pair.
- Attributes.DataProvider.AddAttributes: what QGIS does with the added attributes, including later `fields()` results, is not modelled. Only the call and its argument are recorded.
- Attributes.MergeFieldsInProvider: `fields` is its items in iteration order, with distinct keys. The `provider_fields` dict is modelled as the set of the provider's field names, which is all the method reads from it.
- `all_groups` and `all_tree_items` create generators that are never iterated and return None. They are not modelled.
- `add_layer_to_legend`, `clone_layer`, the `QgsVectorLayer` construction, CRS handling and `geometry_flat_name` are foreign calls. `get_layer` returns `Created(group, name)` where the source creates a layer and calls `add_layer_to_legend(layer, group=group)`; `group` is None when neither the path nor the default group chose one.
- Legend.LegendTree.GetLayer: `QgsProject.mapLayersByName` with `findLayer` is the `fallback` parameter, one entry per map layer, None where `findLayer` finds nothing. The view's current layer is the `current` parameter. `get_layer` returns the tree node; the map layer it also returns is not modelled.
- Legend.FoundOrAdded: QGIS's `findGroup` cannot be seen. It is the `find` parameter, assumed (`FinderSound`) to return only a group of the requested name below the parent.
- LayerCheck.CheckLayer: the current layer of `plugin.iface.layerTreeView()` is the `current` parameter. The data provider's capabilities are a field of the layer. The parameter `t` chooses the reading of the vector test; `AsWritten` is the code as it stands.
- ThreadSupport.GuiSide.DeliverNext: the abort after an exception in `receiver` is not modelled inside it; `DeliverAll` models it by stopping.
- Geometry and feature helpers (`utils/geometry.py`, `utils/features.py`), `qlog.py` and `plugin.py` are thin wrappers around QGIS and logging, and are not modelled.

## Findings

| source | as written | input that shows it | evidently intended | confidence | as-written member | corrected member |
|---|---|---|---|---|---|---|
| qgis_plutil/utils/layer.py:111 | `layer.LayerType() != QgsMapLayer.VectorLayer` calls the enum type, which gives its zero member (VectorLayer) whatever the layer | a valid raster layer with only `vector=True` passes `check_layer` | compare the layer's own type, `layer.type()`, with VectorLayer | medium, not executed | LayerCheck.AsWrittenCheckAcceptsRasterLayer | LayerCheck.VectorCheckStopsOtherLayers |
| qgis_plutil/utils/legend.py:166 | `get_layer` passes `group=None` to `add_layer_to_legend` when it chose no group, and `group.addLayer(layer)` then raises AttributeError | `get_layer("x", iface, "Point")` on a project without a layer named "x" | place the new layer at the top level, as the docstring at legend.py:195-197 says | high, not executed | Legend.AsWrittenTopLevelLayerFails | Legend.NewLayerTargetIsGroup |
