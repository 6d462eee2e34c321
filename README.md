# modela-editor core in Dafny

This project models the core of the modela editor in Dafny and proves properties of the model. The core has three parts.

1. **The IOF channel** (`src/lib/custom.iframe.io.ts`). This is the small event bus that links the editor window with the iframe holding the page being edited.
   - It keeps a registry of listeners per event name. Listeners added with `once` live under the separate key `<event>--@once`.
   - It pins a counterpart window and origin, either by `initiate` on the window side or by the first accepted message on the `listen` side.
   - It sends envelopes `{ _event, payload, cid }` with `postMessage`.
   - It correlates a request with its reply through a synthetic reply event `<event>--<cid>--@callback`. A one-shot waiter is registered under that name.
2. **The view-control factories of `src/modules/factory.ts`.** These are `Toolbar`, `Panel`, `Floating`, `SearchResult`, `FinderPanel`, `createInput` and `createListItem`. They build the markup of the editor's toolbars, panels, floating bars and view finder from option records.
3. **The older factories of `src/block.factory.ts`.** These are `createToolbar`, `createPanel`, `createFloating`, `createInput` and `createListItem`, which do the same jobs with slightly different rules.

## Layout

| module | file | what it holds |
|---|---|---|
| `Wrappers` | wrappers.dfy | `Option`, `Outcome` (done or thrown), `Result` |
| `Js` | js.dfy | The JavaScript built-ins the core relies on: `\s`, ASCII case mapping, the first-match `replace(/\s+/, '-')`, `filter`, `map`, and object entries with assignment, spread and `Object.values`. |
| `Registry` | registry.dfy | The listener registry and the dispatch rule of `fire`. |
| `Correlation` | correlation.dfy | Reply-event names, `split('--@once')`, and the reply payload and its waiter. |
| `Channel` | channel.dfy | The channel state and one function per operation or message handler. |
| `IframeIO` | iof.dfy | Class `IOF`: fields updated in place and a `while` loop in `Fire`. Each method is proved equal to its `Channel` function. |
| `ChannelProperties` | channel_properties.dfy | Two channels talking: the handshake, request/reply, and origin rules. |
| `ViewTypes` | view_types.dfy | Option records, attribute lists, the input id, and `createListItem`. |
| `Sections` | sections.dfy | The fieldset and listset loops that both panel factories share. |
| `Factory` | factory.dfy | `src/modules/factory.ts`. |
| `BlockFactory` | block_factory.dfy | `src/block.factory.ts`. |

### How markup is modelled

Markup is represented as structured values, not strings:
- A list item is its attribute list, its icon, its label and so on.
- Attribute lists keep the source's order, and an attribute the source omits is absent from the list.
- A thrown `Error` is an `Err` or `Thrown` value that carries the error's identity.
- An empty string stands for an absent or falsy text field.

### How the channel is modelled

- The listener functions are opaque ids. Calling one appends an `Invocation` (the listener and its argument list) to a log in the channel state.
- The transport is an outbox of `Post(target, targetOrigin, envelope)`.
- Inbound messages are handed to the handler functions as `(origin, source, data)`.
- `callbackId()` reads the clock and a random number. Its value is passed as a parameter.

### Behaviour that is easy to misread

Each of these follows from the code as written.
- **`off(e)`:** it does not remove every listener of the event. It deletes only the key `e`, so listeners registered with `once(e, …)` survive (`Registry.OffThenFire`).
- **The listening side after pinning:** it checks the origin of later messages, not their source window (`ChannelProperties.ListenerIgnoresSource`).
- **The view-control options:** each factory imports `VIEW_CONTROL_OPTIONS` from its own `./constants`. `src/modules/factory.ts` iterates it as an object, and `src/block.factory.ts` filters it as an array. Each factory's constant is taken, as a parameter, with the type its code uses.

## Model

| member | source | states |
|---|---|---|
| `IframeIO.IOF.constructor` | src/lib/custom.iframe.io.ts:45-55 | A new channel has no listeners, no counterpart, an empty outbox and the given role. |
| `IframeIO.IOF.Create` | src/lib/custom.iframe.io.ts:45-55 | Non-object options throw 'Invalid Options' and missing options throw a TypeError. Otherwise the role is the upper-cased `type`, or IFRAME when it is absent. |
| `Channel.KindOf` | src/lib/custom.iframe.io.ts:46-54 | The role or the error, with both directions of each error case. |
| `IframeIO.IOF.On` | src/lib/custom.iframe.io.ts:202-209 | The new state is `on` applied to the old one. Nothing but the registry changes. |
| `Registry.On` | src/lib/custom.iframe.io.ts:202-209 | The listener goes last in the list of `e`, the list is created if absent, and every other key is unchanged. |
| `IframeIO.IOF.Once` | src/lib/custom.iframe.io.ts:211-220 | The new state is `once` applied to the old one. |
| `Registry.Once` | src/lib/custom.iframe.io.ts:211-220 | The listener is appended under `e--@once`, and the list of `e` is untouched. |
| `Registry.OnceKey` | src/lib/custom.iframe.io.ts:213 | The once key is the event name followed by `--@once`. |
| `IframeIO.IOF.Off` | src/lib/custom.iframe.io.ts:222-229 | The new state is `off` applied to the old one, and the optional completion function is called once with no arguments. |
| `Registry.Off` | src/lib/custom.iframe.io.ts:224 | Only key `e` is removed, and every other list, the once list included, is kept. |
| `Channel.OffStep` | src/lib/custom.iframe.io.ts:222-229 | The registry loses `e`, the completion call is logged, and peer, outbox and handlers are unchanged. |
| `IframeIO.IOF.RemoveListeners` | src/lib/custom.iframe.io.ts:231-238 | The registry becomes empty, the completion call is logged, and nothing else changes. |
| `Channel.RemoveListenersStep` | src/lib/custom.iframe.io.ts:231-238 | The registry is empty afterwards, and peer, outbox and handlers are unchanged. |
| `Registry.RemoveAllThenFire` | src/lib/custom.iframe.io.ts:233 | After `removeListeners`, no event reaches any listener. |
| `IframeIO.IOF.Fire` | src/lib/custom.iframe.io.ts:139-174 | The loop over the listeners leaves exactly the state of `Registry.Fire`: the once bucket is deleted, and the calls are appended to the log in order. |
| `IframeIO.IOF.CallAll` | src/lib/custom.iframe.io.ts:173 | Each listener is called in turn with the same arguments. The log grows by exactly those calls, and nothing else changes. |
| `Channel.FireStep` | src/lib/custom.iframe.io.ts:139-174 | Dispatch changes only the registry and the log. |
| `Channel.ReplyStep` | src/lib/custom.iframe.io.ts:145-153 | Unconnected, a reply throws 'No Connection initiated'. Otherwise it adds exactly one post of `{error, args}` on the reply event, without a cid, and registers no waiter. |
| `Registry.ArgsOf` | src/lib/custom.iframe.io.ts:173 | A listener is called with `(payload, reply)`, or with `(reply)` alone when the payload is undefined. |
| `Registry.Calls` | src/lib/custom.iframe.io.ts:173 | One invocation per listener, in registration order, all with the same arguments. |
| `Registry.CallsSnoc` | src/lib/custom.iframe.io.ts:173 | Calling one more listener appends exactly its invocation. |
| `Registry.Invoked` | src/lib/custom.iframe.io.ts:173 | The listeners of a call sequence, in order. |
| `Registry.FireIdle` | src/lib/custom.iframe.io.ts:141-143 | With neither list present, `fire` calls nothing and changes nothing. |
| `Registry.FireOnceBucket` | src/lib/custom.iframe.io.ts:158-164 | With a once bucket present, exactly that bucket runs, in order, and is deleted. The persistent list is skipped. |
| `Registry.FirePersistent` | src/lib/custom.iframe.io.ts:165-173 | Without a once bucket, the persistent list runs in order and the registry is kept. |
| `Registry.FireFreshOnce` | src/lib/custom.iframe.io.ts:158-164 | A listener added with `once` under a fresh name runs once when that name fires with a payload and no cid. The registry is then as it was before. |
| `Registry.FireOnceKeyDirectly` | src/lib/custom.iframe.io.ts:158-173 | Firing the `--@once` key itself takes the persistent path: the listener runs and stays registered. |
| `Registry.OnceThenFireTwice` | src/lib/custom.iframe.io.ts:211-220 | After `once(e, f)`, the first `fire(e)` runs the once bucket ending with `f`. The second runs only the persistent list, so `f` does not run again unless it was also added with `on`. |
| `Registry.OffThenFire` | src/lib/custom.iframe.io.ts:222-229 | After `off(e)`, a `fire(e)` still runs every listener registered with `once(e, …)`, and nothing else. |
| `IframeIO.IOF.Emit` | src/lib/custom.iframe.io.ts:176-200 | The outcome and new state equal `Channel.Emit` on the old state. |
| `Channel.Emit` | src/lib/custom.iframe.io.ts:176-200 | Emitting throws 'No Connection initiated' exactly when no counterpart is pinned. Otherwise:<br>- one post goes to the pinned window and origin;<br>- a function given as payload is the callback;<br>- with a callback, the cid travels in the envelope and a waiter is added under the once key of the reply event;<br>- nothing else changes. |
| `IframeIO.IOF.Reply` | src/lib/custom.iframe.io.ts:145-155 | Calling a reply function emits the reply payload on the reply event. |
| `Correlation.CallbackName` | src/lib/custom.iframe.io.ts:191 | The reply event is `<e>--<cid>--@callback`, and its length is fixed by its parts. |
| `Correlation.CallbackNameInjective` | src/lib/custom.iframe.io.ts:191 | Different cids of one event give different reply events, so replies cannot cross. |
| `Correlation.CallbackNameNotHandshake` | src/lib/custom.iframe.io.ts:82 | A reply event, or its once key, is never `handshake`. |
| `Correlation.IndexOfOnce` | src/lib/custom.iframe.io.ts:148 | A found position marks an occurrence of `--@once`. |
| `Correlation.IndexOfOnceFirst` | src/lib/custom.iframe.io.ts:148 | `IndexOfOnce` finds the first occurrence of `--@once`, and `None` means that no occurrence exists. |
| `Correlation.NoOnceMarkerMeans` | src/lib/custom.iframe.io.ts:148 | A name has no marker exactly when `--@once` occurs nowhere in it. |
| `Correlation.SplitOnce` | src/lib/custom.iframe.io.ts:148 | `split('--@once')` gives a prefix followed by a marker when a second part exists, and the whole text otherwise. |
| `Correlation.SplitOnceFirst` | src/lib/custom.iframe.io.ts:148 | The split reports a second part exactly when the marker occurs, and then cuts at its first occurrence. |
| `Correlation.IndexOfOnceKey` | src/lib/custom.iframe.io.ts:158-160 | In a once key built from a marker-free name, the first marker is at the end of the name. |
| `Correlation.ReplyNamePersistent` | src/lib/custom.iframe.io.ts:148-151 | A persistent listener replies on exactly the event the requester waits on. |
| `Correlation.ReplyName` | src/lib/custom.iframe.io.ts:146-150 | The reply event starts with `<ev>--<cid>--@callback`, where `ev` is the listener's event name up to its first marker. It ends with `--@once` exactly when that name carries the marker. |
| `Correlation.ReplyNameOnce` | src/lib/custom.iframe.io.ts:148-151 | A once listener replies on the reply event with `--@once` appended. |
| `Correlation.ErrorOrFalse` | src/lib/custom.iframe.io.ts:153 | `error \|\| false`: the error when it is truthy, and `false` otherwise. |
| `Correlation.Spread` | src/lib/custom.iframe.io.ts:191 | `...args` yields an array's items or a string's characters, and throws for any other value. |
| `Correlation.WaiterCall` | src/lib/custom.iframe.io.ts:191 | The waiter calls back exactly when its first argument is an object whose `args` is an array or a string. The first callback argument is that object's `error`, or undefined. |
| `Correlation.WaiterSpreadsString` | src/lib/custom.iframe.io.ts:191 | A string sent as `args` reaches the callback one character per argument, after the error. |
| `Correlation.ReplyReachesCallback` | src/lib/custom.iframe.io.ts:153 | The waiter decodes a reply payload into the callback arguments `(error \|\| false, ...args)`. |
| `IframeIO.IOF.Initiate` | src/lib/custom.iframe.io.ts:59-95 | The outcome and new state equal `Channel.Initiate` on the old state. |
| `Channel.Initiate` | src/lib/custom.iframe.io.ts:59-95 | A missing window or origin, and then the IFRAME role, each throw without changing anything. Otherwise the counterpart is pinned, one handler is added, and exactly one `handshake` is posted to the iframe's origin. |
| `IframeIO.IOF.Listen` | src/lib/custom.iframe.io.ts:97-137 | The new state equals `Channel.Listen` on the old state. |
| `Channel.Listen` | src/lib/custom.iframe.io.ts:97-137 | Listening forces the IFRAME role and adds one handler that holds the host origin. Nothing else changes. |
| `IframeIO.IOF.OnInitiateMessage` | src/lib/custom.iframe.io.ts:70-89 | The outcome and new state equal `Channel.OnInitiateMessage`. |
| `Channel.OnInitiateMessage` | src/lib/custom.iframe.io.ts:70-89 | A foreign origin or source, non-object data and a missing `_event` are all dropped without change. Only `null` data throws, and then nothing changes. The handler never posts. |
| `IframeIO.IOF.OnListenMessage` | src/lib/custom.iframe.io.ts:102-134 | The outcome and new state equal `Channel.OnListenMessage`. |
| `Channel.OnListenMessage` | src/lib/custom.iframe.io.ts:102-134 | A throw leaves the state unchanged, and the handlers are never changed. `ListenGate`, `Deliver` and the listener lemmas of `ChannelProperties` state the rest. |
| `Channel.ListenGate` | src/lib/custom.iframe.io.ts:103-110 | A mismatching host origin throws 'Invalid Event Origin' first. The message goes on exactly when it has a source and object data with `_event`. `null` data from a source throws a TypeError, and everything else is dropped. |
| `Channel.Deliver` | src/lib/custom.iframe.io.ts:126-134 | `handshake` is answered with one `handshake` post when asked and connected, and fires `connect`. Any other event is fired with its payload and cid, without a post. The pin and handlers are kept. |
| `ChannelProperties.HandshakeConnectsBoth` | src/lib/custom.iframe.io.ts:82-92 | In the handshake, `initiate` posts `handshake` to the iframe, and the iframe pins the window, answers and raises `connect`. The answer makes the window raise `connect` without replying. Each side's log grows by one dispatch of `connect`. |
| `ChannelProperties.RepeatedHandshake` | src/lib/custom.iframe.io.ts:126-131 | Every later `handshake` is answered again and raises `connect` again. |
| `ChannelProperties.OriginAsymmetry` | src/lib/custom.iframe.io.ts:72-76 | After pinning, a message from another origin makes the listening side throw 'Invalid Origin' and the initiating side drop it. Neither changes state. |
| `ChannelProperties.ListenerIgnoresSource` | src/lib/custom.iframe.io.ts:113-120 | After pinning, the listening side delivers a message from another window of the pinned origin, while the initiating side drops it. |
| `ChannelProperties.HostOriginEnforced` | src/lib/custom.iframe.io.ts:104-105 | A host origin given to `listen` that differs from the message's makes the handler throw, whatever the message holds. |
| `ChannelProperties.ListenDropsMalformed` | src/lib/custom.iframe.io.ts:107-110 | Once the host origin passes, a message without a source, or whose data is not an object with `_event`, is dropped with no change. |
| `ChannelProperties.ListenNullThrows` | src/lib/custom.iframe.io.ts:107-110 | `null` data from a window throws a TypeError and changes nothing. |
| `ChannelProperties.FirstMessagePins` | src/lib/custom.iframe.io.ts:113-134 | The first well-formed message, whatever its event, pins its window and origin and is then fired with its payload and cid. |
| `ChannelProperties.FrameDelivers` | src/lib/custom.iframe.io.ts:102-134 | A well-formed message other than `handshake`, from the pinned window, makes the frame fire its event with its payload and cid. |
| `ChannelProperties.WindowDelivers` | src/lib/custom.iframe.io.ts:70-89 | A message other than `handshake`, from the pinned frame, makes the window fire its event. |
| `ChannelProperties.ReplyPost` | src/lib/custom.iframe.io.ts:145-155 | A connected reply posts `(error, ...args)` to the counterpart on the reply event, without a cid. |
| `ChannelProperties.FrameLegPersistent` | src/lib/custom.iframe.io.ts:145-174 | With a persistent listener, the frame runs the listeners with the payload and a reply function. A reply then posts back on `<e>--<cid>--@callback`. |
| `ChannelProperties.WindowLegOnce` | src/lib/custom.iframe.io.ts:176-200 | The window posts the request with its cid. The reply runs the waiter once and evicts it. |
| `ChannelProperties.FrameLegOnce` | src/lib/custom.iframe.io.ts:145-164 | With a once listener, the frame runs and drops the bucket. A reply then posts on the once-suffixed reply name. |
| `ChannelProperties.WindowLegKeeps` | src/lib/custom.iframe.io.ts:158-200 | A reply on `<e>--<cid>--@callback--@once` runs the waiter once and leaves it registered. |
| `ChannelProperties.RequestReplyRoundTrip` | src/lib/custom.iframe.io.ts:145-191 | In a request with a callback, the iframe's listeners get the payload and a reply function. The reply travels back on `<e>--<cid>--@callback`. There the waiter runs once, is removed, and hands the callback `(error \|\| false, ...args)`. |
| `ChannelProperties.ReplyFromOnceListenerKeepsWaiter` | src/lib/custom.iframe.io.ts:148-164 | When the replying listener was added with `once`, the callback still runs once, but its waiter stays registered on the requesting side. |
| `ChannelProperties.PinnedOriginScenario` | src/lib/custom.iframe.io.ts:113-133 | An iframe pinned to `https://host.example` runs its `ping` listener with "hello". The same message from `https://evil.example` throws and runs nothing. |
| `Js.ToLower` | src/modules/factory.ts:358 | Lower-casing is character by character and keeps the length. |
| `Js.ToUpper` | src/lib/custom.iframe.io.ts:54 | Upper-casing is character by character and keeps the length. |
| `Js.ReplaceFirstSpaceRunNoSpace` | src/modules/factory.ts:358 | `replace(/\s+/, '-')` leaves a string without white space unchanged. |
| `Js.ReplaceFirstSpaceRunSplit` | src/modules/factory.ts:358 | `replace(/\s+/, '-')` turns only the first whole run of white space into one `-`. |
| `Js.ReplaceWholeRun` | src/modules/factory.ts:358 | A key that starts with a white-space run followed by a non-space character has that run replaced by a single `-`. |
| `Js.ReplaceFirstSpaceRunCons` | src/modules/factory.ts:358 | A leading non-space character is kept and the replacement goes on in the rest. |
| `Js.DropWholeRun` | src/modules/factory.ts:358 | A whole run of white space is consumed, and the text after it is kept. |
| `Js.ReplaceAll` | src/modules/factory.ts:442 | `replace(/-/g, ' ')` changes every dash and nothing else. |
| `Js.Select` | src/modules/factory.ts:167 | `filter` keeps exactly the elements that satisfy the predicate. |
| `Js.SelectEmpty` | src/block.factory.ts:127-128 | A filter is empty iff no element satisfies the predicate. |
| `Js.SelectSplits` | src/modules/factory.ts:152-154 | A predicate and its negation split a sequence. |
| `Js.MapSeq` | src/modules/factory.ts:180 | `map` keeps the length and applies the function at each index. |
| `Js.FilterMapIsMapSelect` | src/modules/factory.ts:177-180 | Filtering and mapping in one pass, as `composeMenu` accumulates, equals `filter` followed by `map`. |
| `Js.SelectMapSnoc` | src/modules/factory.ts:177-180 | Filtering and mapping a sequence with one more element appends the mapped element iff it passes the filter. |
| `Js.MappedFrom` | src/modules/factory.ts:177-180 | Every mapped item comes from an element of the input that passes the filter. |
| `Js.Keys` | src/modules/factory.ts:177-178 | The keys of an object, in order. |
| `Js.Put` | src/modules/factory.ts:169 | Assigning to a key that is present replaces its value in place. A new key goes last. |
| `Js.PutKeepsDistinct` | src/modules/factory.ts:169 | Assigning keeps keys distinct and adds exactly the assigned key. |
| `Js.SpreadKeys` | src/modules/factory.ts:174 | `{ ...a, ...b }` has distinct keys, namely the keys of `a` and of `b`. |
| `Js.SpreadDisjoint` | src/modules/factory.ts:174 | With disjoint keys, `{ ...a, ...b }` is the entries of `a` followed by those of `b`. |
| `Js.PutNewKey` | src/modules/factory.ts:169 | Setting a key that is not yet present appends it at the end. |
| `Js.DisjointShift` | src/modules/factory.ts:174 | Moving the first entry of the spread object to the target keeps the keys distinct and disjoint. |
| `Js.Values` | src/modules/factory.ts:432 | `Object.values` lists the values in key order. |
| `ViewTypes.Digits` | src/modules/factory.ts:370 | A natural number is written as its decimal representation: the digits read back as `n`, with no leading zero. |
| `ViewTypes.ScalarText` | src/modules/factory.ts:370 | An integer is written as decimal text that reads back as the same integer, with a leading `-` exactly when it is negative. |
| `ViewTypes.PositionAttrs` | src/modules/factory.ts:189-190 | A given position adds exactly `style="left:<left>;top:<top>;"`, and no position adds nothing. |
| `ViewTypes.StyleDeterminesPosition` | src/modules/factory.ts:189-190 | When `left` holds no `;`, equal style attributes come from equal positions. |
| `ViewTypes.InputIdPlain` | src/modules/factory.ts:358 | For a key without white space, the input id is `input-<type>-` followed by the key in lower case. |
| `ViewTypes.InputIdFirstRunOnly` | src/modules/factory.ts:358 | Only the key's first run of white space becomes `-`, and later runs are kept. |
| `ViewTypes.EventAttrs` | src/modules/factory.ts:408-411 | `<type>="<attr>"` is added iff both type and attr are set, and `params` is added iff params are set, in that order. |
| `ViewTypes.CreateListItem` | src/modules/factory.ts:404-420 | The disabled class comes first iff disabled, followed by the event attributes. The value is shown iff truthy, and the sub-arrow iff `sub`. |
| `Sections.Present` | src/modules/factory.ts:255 | Inputs that render as undefined disappear from the joined list, and nothing else does. |
| `Sections.ComposeFieldsets` | src/modules/factory.ts:247-261 | The fieldset loop produces the pieces of `FieldsetPieces`, and nothing when there are no fieldsets. |
| `Sections.ComposeListsets` | src/modules/factory.ts:263-277 | The listset loop produces the pieces of `ListsetPieces`, and nothing when there are no listsets. |
| `Sections.FieldsetPiecesShape` | src/modules/factory.ts:247-261 | One piece per fieldset with a non-empty field array. A separator only ever follows a rendered set. The rendered sets, in order, are followed by a separator exactly when they have `seperate`. |
| `Sections.ListsetPiecesShape` | src/modules/factory.ts:263-277 | One piece per listset with a non-empty item array. A separator only ever follows a rendered set. The rendered sets, in order, are followed by a separator exactly when they have `seperate`. |
| `Sections.CountSetsAppend` | src/modules/factory.ts:253-260 | The set count adds up over concatenation. |
| `Factory.CreateInput` | src/modules/factory.ts:356-389 | An input is rendered iff its type is text, search or checkbox. Its id comes from the label, or the name when there is none. A text input keeps its type and name. A checkbox is checked iff its value is truthy. |
| `Factory.ComposeLiHead` | src/modules/factory.ts:126-142 | The leading attributes of a menu item, and a sub-menu exactly when the option has sub options. |
| `Factory.ComposeLi` | src/modules/factory.ts:123-155 | Its main item equals `MenuItemOf`, and it has a sub-menu iff there are sub options. |
| `Factory.OpenerAttrsFirst` | src/modules/factory.ts:126-128 | A sub-menu opener's attributes start with `show="sub-toolbar" params="<key>"`. |
| `Factory.CollectControls` | src/modules/factory.ts:160-171 | The meta controls are collected, and the detached controls only when the `detached` setting is on. |
| `Factory.ComposeMenu` | src/modules/factory.ts:177-180 | The main, extra and sub-menu lists are the visible entries of each kind, in order, rendered. |
| `Factory.Toolbar` | src/modules/factory.ts:87-220 | The toolbar equals `ToolbarSpec`, its specification as a function of the input and the controls. |
| `Factory.CollectIsSelect` | src/modules/factory.ts:165-171 | With distinct keys, collecting into an object by key is the same as filtering. |
| `Factory.MainExtraSplitShown` | src/modules/factory.ts:152-154 | Every visible entry is either a main entry or an extra entry. |
| `Factory.ToolbarLayout` | src/modules/factory.ts:177-183 | 'Undefined main options' is thrown iff no visible entry is a main one. Otherwise every visible entry is rendered once, in main or extra, and hidden entries nowhere. |
| `Factory.ToolbarMetaMerge` | src/modules/factory.ts:89-174 | The `typeof` test (lines 89-90) and the merge of meta controls (lines 173-174). Non-objects fail first. `null` options fail unless meta controls are spread over them. Outside editing mode the options are kept. In editing mode with disjoint keys, the meta controls come last, in their order. |
| `Factory.SelectKeepsOrder` | src/modules/factory.ts:167 | Filtering keeps the relative order of the kept elements. |
| `Factory.ToolbarControls` | src/modules/factory.ts:209-214 | The control block is empty unless `detached` is on. When it is on, the block lists the visible detached controls in order, with events on the bare key. |
| `Factory.ComposeSection` | src/modules/factory.ts:241-283 | One section gives its tab, which is active iff it is named by `active` or is the first, and its fieldset and listset body. |
| `Factory.Panel` | src/modules/factory.ts:232-315 | The panel equals `PanelSpec`, its specification as a function of the input. |
| `Factory.PanelActiveTabs` | src/modules/factory.ts:288 | When `active` names a later section, exactly two tabs are marked active: the first and the named one. |
| `Factory.PanelBodies` | src/modules/factory.ts:247-277 | Every section body keeps the fieldset and listset rules: one piece per non-empty set, in order, followed by a separator exactly when that set has `seperate`. |
| `Factory.Floating` | src/modules/factory.ts:322-339 | The bar equals `FloatingSpec`: a missing or empty trigger list fails, and there is one item per known trigger, in order. |
| `Factory.FloatingItems` | src/modules/factory.ts:327-333 | A list of only unknown triggers gives an empty bar, and every item carries the view type. |
| `Factory.SearchResult` | src/modules/factory.ts:425-451 | The results equal `SearchSpec`. |
| `Factory.ResultPiecesShape` | src/modules/factory.ts:432-445 | One group per list with items, and each separator directly precedes a group. A group has a separator before it exactly when its list has `seperate` and is not the first list. The output is empty iff no list has items. |
| `Factory.ResultSeparators` | src/modules/factory.ts:432-445 | For the groups in order, a separator precedes a group exactly when its list has `seperate` and its index among all lists is above 0, whether or not earlier lists were rendered. |
| `Factory.ResultPiecesCounted` | src/modules/factory.ts:432-445 | Each separator directly precedes a group, and there is one group per list with items. |
| `Factory.AppendGroup` | src/modules/factory.ts:438-444 | Appending one list's separator and group keeps separators before groups and adds exactly one group. |
| `Factory.GroupLast` | src/modules/factory.ts:438-444 | A non-empty output holds at least one group. |
| `Factory.SeparatorsPrecedeAppend` | src/modules/factory.ts:438-441 | Adding a group, with or without a separator in front, keeps separators before groups. |
| `Factory.OneGroupCounted` | src/modules/factory.ts:438-441 | A group with its optional separator counts as one set. |
| `Factory.NoResultWhenNothingShown` | src/modules/factory.ts:447 | The "No result" block is shown iff no list has items. |
| `Factory.SeparatorCanLead` | src/modules/factory.ts:438 | Because the separator rule tests the index and not what was rendered, an empty first list followed by a separated list makes a separator open the results. |
| `Factory.FinderPanel` | src/modules/factory.ts:457-488 | The finder equals `FinderSpec`: a missing key or list fails. |
| `Factory.FinderSearchField` | src/modules/factory.ts:473-477 | The finder's search field is `input-search-search` with its placeholder and no other attribute. |
| `Factory.SearchInputRendered` | src/modules/factory.ts:356-375 | `createInput` renders the search options as that field. |
| `Factory.SearchInputId` | src/modules/factory.ts:358 | The search field's id is `input-search-search`. |
| `Factory.SearchAttrs` | src/modules/factory.ts:362-375 | The search options give the field only its placeholder. |
| `BlockFactory.CreateInput` | src/block.factory.ts:255-285 | An input is rendered iff its type is text or checkbox, with the id from the label. A text input has no autofocus. A checkbox is checked iff its value is truthy. |
| `BlockFactory.ComposeLi` | src/block.factory.ts:86-112 | The item's attributes start with the disabled class when disabled. There is a sub-block iff the option has an event and sub options. |
| `BlockFactory.ComposeMenu` | src/block.factory.ts:125 | The main, extra and sub-block lists are the options of each kind, in order, rendered. |
| `BlockFactory.CreateToolbar` | src/block.factory.ts:60-157 | The toolbar equals `ToolbarSpec`. 'Invalid createToolbar Arguments' is thrown iff the key is not a string or the options are not a non-empty array. |
| `BlockFactory.MainExtraSplit` | src/block.factory.ts:109-111 | Every option is either main or extra. |
| `BlockFactory.ToolbarLayout` | src/block.factory.ts:117-128 | Meta controls are appended only in editing mode. 'Undefined main options' is thrown iff no option is main. Otherwise every option is rendered once. |
| `BlockFactory.ToolbarSubBlocks` | src/block.factory.ts:94-100 | There is one sub-block per option with an event and sub options, in the order of those options. Each sub-block extends its option's event params and has one item per sub option. |
| `BlockFactory.ToolbarControls` | src/block.factory.ts:148-154 | The control block is non-empty iff the toolbar is in editing mode and some control is detached. |
| `BlockFactory.CreatePanel` | src/block.factory.ts:159-231 | The panel equals `PanelSpec`. |
| `BlockFactory.ComposeSection` | src/block.factory.ts:167-209 | One section's tab: `tab="<name>"`, active iff it is the first or `active` names it. Its body is made of its fieldsets and listsets. |
| `BlockFactory.PanelTabs` | src/block.factory.ts:160-214 | 'Invalid createPanel options' is thrown iff the options are missing or empty. Otherwise there is one tab per section, named after it. A tab is active iff it is the first or `active` names it. |
| `BlockFactory.CreateFloating` | src/block.factory.ts:233-246 | The bar equals `FloatingSpec`. |
| `BlockFactory.FloatingForms` | src/block.factory.ts:237-245 | An update returns the bare list and otherwise the same list under the key. The list is empty iff no trigger is known. |

## Left out

- **Page context:**
  - `console.debug` logging is not modelled.
  - The `window.addEventListener` / `postMessage` APIs are not modelled. Handlers are recorded in the state, and delivery is a call of the handler function.
  - Structured cloning of payloads is not modelled.
- **The correlation id:** `callbackId()` uses `Date.now()` and `Math.random()`. Its result is a parameter of `Emit`, so its uniqueness is an assumption stated in `RequestReplyRoundTrip`.
- **Channel inputs:**
  - Listener functions are opaque ids. What a listener does when called, including re-entrant calls into the same channel, is not modelled.
  - `_event` values that are not strings are not modelled.
  - `cid` values that are not strings are not modelled. An envelope's cid is an optional string. `fire` only tests it for truthiness and writes it into the reply event name, so a numeric cid would act like its decimal text, except that `0` is falsy.
  - NaN is not modelled among truthy values.
- `ScalarText`: numbers are modelled as integers only. Fractions (`1.5`) and the exponent form JavaScript uses from 1e21 on (`1e+21`) are not modelled, so the text is exact only for integers below 1e21 in magnitude. Numeric payloads on the channel (`Num`) are integers too.
- `Registry.On`, `Registry.Fire`: the registry is a plain map. In the source, `this.Events` is an object literal with a prototype chain. An event named after an `Object.prototype` property (`constructor`, `toString`, `__proto__`) is therefore already `in` it: `on` would then throw a TypeError (there is no `push`), and so would `fire` with no listeners (there is no `map`). The model treats such names like any other.
- `Registry.Fire`: it has no `ensures` of its own, because it is specified by `Registry.FireIdle`, `Registry.FireOnceBucket` and `Registry.FirePersistent`.
- **Case mapping:** only the ASCII letters are mapped by `toLowerCase` and `toUpperCase`, not full Unicode.
- **Template text:** tag names, whitespace, fixed icons, titles and the translation attribute of the markup are not modelled. Attribute lists and the structure of items are.
- `toCapitalCase` is a prototype extension defined elsewhere and is a parameter. The `pattern` of an input is kept as text.
- **Ordering:** JavaScript's ordering of integer-like keys in objects is not modelled. Entries keep insertion order.
- **Types the model narrows:**
  - `event.params` that are not strings are not modelled.
  - A `null` position is not modelled. In the source it passes the `typeof` test and then throws.
- **`createInput` crashes:**
  - In `src/block.factory.ts`, `createInput` throws when the label is undefined. The model uses the empty label.
  - In `src/modules/factory.ts`, it throws when both label and name are undefined. The model uses the empty name.
- **Components:** the `Component` wrapper that each `src/modules/factory.ts` factory returns is not modelled. The model returns the block itself.
- **Other builders:** `Alley`, `createSelectFileInput`, `createPlaceholder`, `createGlobal`, `WorkspaceLayer`, `createFrame` and the global and store control blocks are not part of this model. `createFormSeperator` is the `Separator` piece.
