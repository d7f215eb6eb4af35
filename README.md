# realXtend viewer core, modelled in Dafny

This project models the core logic of the realXtend (Naali/Tundra) 3D
virtual-world viewer and proves properties of it:

- **Prim protocol handling.** The RexLogic network event handler decodes OpenSim
  messages into the "World" scene. It covers object updates and the RexPrimData
  blob, plus region handshake, logout and agent movement. It also keeps the
  map from full UUIDs to local entity ids.
- **Primitive request-tag maps.** These record which resource request belongs
  to which prim entity.
- **Asset transfers.** Packetised UDP asset transfers and the asset manager's
  completed and in-flight registries.
- **Console core.** Command registration, the command-line parser and command
  execution. It also covers log-level and log-channel handling.
- **View tracking in the Ogre world.** Entities ask to be told when they enter
  or leave the camera's view.
- **The "add component" dialog.** This covers its type names and its
  duplicate-name check.
- **The script component.** It holds, runs and unloads a script instance.

The handler, the transfers, the console, the world, the dialog and the script
component change state in place. Each is a Dafny `class` with those fields.
Every method is proved equal to a specification function of the old state,
and the properties are lemmas about those functions.

The pure parts are datatypes, functions and lemmas:

- Message decoding.
- The console parser.
- The dialog's type-name rules.

The module layout is as follows:

| file | module | models |
|---|---|---|
| wrappers.dfy | Wrappers | Option and Result |
| net_in_message.dfy | NetMessage | the inbound message cursor the handlers read from |
| prim_scene.dfy | PrimScene | entities and their prim, viewable and placeable components; find-or-create |
| network_event_handler.dfy | RexLogic | NetworkEventHandler |
| primitive.dfy | RexPrimitive | Primitive's request-tag maps |
| asset_manager.dfy | Asset | AssetTransfer and AssetManager |
| qt_text.dfy | QtText | the QString operations used (trimmed, indexOf, split, case-insensitive compare) |
| console_api.dfy | Console | ConsoleAPI |
| ogre_world.dfy | OgreView | OgreWorld's view tracking |
| add_component_dialog.dfy | ComponentDialog | AddComponentDialog |
| ec_script.dfy | ScriptComponent | EC_Script |

Foreign collaborators appear in the model as follows:

- **Replaced by values.** The scene is a map from entity id to entity. The
  camera's visible set, the live entities and the main camera scene are
  parameters.
- **Transcripts.** The console's printed lines, command invocations, script
  instance calls and view signals are kept as recorded sequences.
- **Opaque functions.** RexUUID's parsing from text is a function parameter.

## Model

| member | source | states |
|---|---|---|
| RexLogic.NetworkEventHandler.HandleOpenSimNetworkEvent | ReXLogic/NetworkEventHandler.cpp:68-86 | The new handler state and outcome are exactly those of the dispatch specification `Dispatch`. An event other than EVENT_NETWORK_IN, or a message id outside the seven cases, reaches no handler. |
| RexLogic.DispatchIgnoresUnknown | ReXLogic/NetworkEventHandler.cpp:70-85 | A non-network event or an unknown message id returns false and changes nothing. |
| RexLogic.DispatchNeverHandles | ReXLogic/NetworkEventHandler.cpp:68-86 | No handler ever reports an event as handled, so every event propagates. |
| RexLogic.DispatchKeepsMapsToPrims | ReXLogic/NetworkEventHandler.cpp:101-127 | Every handler keeps UUIDs_ pointing only at existing entities that carry the prim components. |
| RexLogic.NetworkEventHandler.GetOrCreatePrimEntity | ReXLogic/NetworkEventHandler.cpp:88-99 | The corrected contract: the entity with the local id exists afterwards with EC_OpenSimPrim, EC_Viewable and EC_OgrePlaceable. A new entity gets defaults, and no other entity changes. |
| RexLogic.NetworkEventHandler.GetOrCreatePrimEntityWithUUID | ReXLogic/NetworkEventHandler.cpp:101-115 | Same as GetOrCreatePrimEntity, and `UUIDs_[fullid] = entityid` is recorded only when the entity had to be created. An existing entity leaves the map untouched. |
| RexLogic.NetworkEventHandler.GetPrimEntity | ReXLogic/NetworkEventHandler.cpp:117-127 | Returns nothing for an unmapped UUID, and otherwise the mapped entity, which is a prim entity. |
| RexLogic.NetworkEventHandler.GetAvatarEntitySafe | ReXLogic/NetworkEventHandler.cpp:146-168 | An existing entity is returned unchanged. Otherwise an entity with no components is created under the id. |
| PrimScene.FindOrCreatePrim | ReXLogic/Primitive.h:35-37 | The returned entity always has EC_OpenSimPrim. If no entity has the local id, one is created there with defaults. Components already present are kept, and no other entity changes. |
| PrimScene.RegisterIfNew | ReXLogic/NetworkEventHandler.cpp:106-111 | The UUID map gains `fullid -> id` exactly when the id was not yet in the scene. |
| PrimScene.LookupPrim | ReXLogic/NetworkEventHandler.cpp:122-126 | Some entity exactly when the UUID is mapped to an id the scene has, and then that id. |
| PrimScene.CreateKeepsMapsToPrims | ReXLogic/NetworkEventHandler.cpp:101-115 | Find-or-create with registration keeps every mapped UUID pointing at a prim entity. |
| PrimScene.LookupAfterCreate | ReXLogic/NetworkEventHandler.cpp:106-127 | After a prim is created under a full id, GetPrimEntity on that id finds it. |
| PrimScene.AsWrittenReturnsEntityWithoutPrim | ReXLogic/NetworkEventHandler.cpp:88-115 | As written, either overload returns an avatar entity created earlier under the same local id without EC_OpenSimPrim (see Findings). |
| RexLogic.NetworkEventHandler.ReadObjectUpdateHeader | ReXLogic/NetworkEventHandler.cpp:174-182 | The header is RegionHandle (U64), skip, LocalID (U32), skip, FullID (UUID), skip, PCode (U8). The result is the header decoder's value, and a failed read is returned as its error. |
| RexLogic.ObjectUpdateHeaderShape | ReXLogic/NetworkEventHandler.cpp:174-182 | The header decodes exactly when the variables at 0, 2, 4 and 6 have the types U64, U32, UUID and U8 and the three skipped ones exist. The decoded fields are the values of those variables. |
| RexLogic.NetworkEventHandler.HandleObjectUpdate | ReXLogic/NetworkEventHandler.cpp:170-239 | Equals the ObjectUpdate specification. PCode 0x09 finds or creates the prim and applies the prim writes in wire order. PCode 0x2f finds or creates the avatar. Any other PCode does nothing. It always returns false. |
| RexLogic.NetworkEventHandler.ReadFieldsFrom | ReXLogic/NetworkEventHandler.cpp:194-222 | Reading the prim fields from a given field onwards applies exactly the decoded writes in order. The outcome is the first failed read, if any. |
| RexLogic.NetworkEventHandler.ReadField | ReXLogic/NetworkEventHandler.cpp:194-222 | One field read: on success, the entity is updated by that field's write and the cursor moves past it. On failure nothing is written and the error is returned. |
| RexLogic.DecodeFollowsWireOrder | ReXLogic/NetworkEventHandler.cpp:194-222 | The prim branch writes Material, ClickAction, Scale, ObjectData, ParentID, UpdateFlags, HoveringText and MediaURL in that order. It writes at most one per field, and it stops early exactly when a read fails. |
| RexLogic.ObjectDataEffect | ReXLogic/NetworkEventHandler.cpp:198-213 | Position (offset 0) and orientation (offset 36) are set exactly when the object data is 60 bytes. Any other length is only reported, with its length. |
| RexLogic.ShortObjectDataStillReadsParent | ReXLogic/NetworkEventHandler.cpp:212-216 | A wrong-length object data block does not stop decoding: ParentID and then UpdateFlags are still read and written, in that order. |
| RexLogic.ApplyEffectsKeepsPlaceable | ReXLogic/NetworkEventHandler.cpp:200-213 | Without a 60-byte object data block the placeable's position and orientation are left unchanged. |
| RexLogic.ApplyEffectsKeepsPrim | ReXLogic/NetworkEventHandler.cpp:190-222 | A prim entity keeps all its prim components under every prim write. |
| RexLogic.ObjectUpdateLeavesPrimEntity | ReXLogic/NetworkEventHandler.cpp:188-222 | After a prim ObjectUpdate the entity with the local id exists and has all prim components, whatever was there before. |
| RexLogic.ApplyEffect | ReXLogic/NetworkEventHandler.cpp:194-222 | A prim write changes only the one entity, keeps its viewable, and leaves the placeable alone unless it is the transform write. |
| RexLogic.ApplyEffects | ReXLogic/NetworkEventHandler.cpp:194-222 | A sequence of prim writes keeps the set of entities, and no prim entity loses a prim component. |
| RexLogic.NetworkEventHandler.HandleGenericMessage | ReXLogic/NetworkEventHandler.cpp:276-296 | Skips AgentId, SessionId and TransactionId and reads the method name. "RexMediaUrl" returns false (a stub), "RexPrimData" is decoded, and anything else returns false. |
| RexLogic.NetworkEventHandler.HandleRexPrimData | ReXLogic/NetworkEventHandler.cpp:298-346 | Equals the RexPrimData specification: an unknown prim UUID changes nothing. Otherwise the prim and viewable components receive the blob. |
| RexLogic.GenericMessageOnlyPrimDataActs | ReXLogic/NetworkEventHandler.cpp:282-295 | A method name other than "RexPrimData", "RexMediaUrl" included, returns false and leaves the whole state unchanged. "RexPrimData" behaves exactly as HandleRexGM_RexPrimData. An unreadable header aborts with nothing changed. |
| RexLogic.NetworkEventHandler.SumBufferSizes | ReXLogic/NetworkEventHandler.cpp:309-316 | The first loop's total is the sum of the lengths of every buffer from the cursor up to NetVarNone. A non-buffer variable makes the read fail. |
| RexLogic.NetworkEventHandler.CopyBuffers | ReXLogic/NetworkEventHandler.cpp:318-333 | The second loop fills a fresh array of exactly that total size with the buffers back to back, in order. |
| RexLogic.NetworkEventHandler.CopyNextBuffer | ReXLogic/NetworkEventHandler.cpp:329-332 | One memcpy step: the next buffer lands right after the bytes already copied, and pos grows by its length. |
| RexLogic.RexPrimDataDeliversAllBuffers | ReXLogic/NetworkEventHandler.cpp:305-341 | For a known prim, both components receive the in-order concatenation of every trailing buffer. Its length equals the sum of the buffer lengths from the first pass. |
| RexLogic.RexPrimDataUnknownPrim | ReXLogic/NetworkEventHandler.cpp:305-306 | A UUID not in UUIDs_ leaves the state as it was and returns false. |
| RexLogic.DeliverPrimData | ReXLogic/NetworkEventHandler.cpp:335-340 | Only the one entity changes: its EC_OpenSimPrim and EC_Viewable receive the blob. |
| RexLogic.ConcatLength | ReXLogic/NetworkEventHandler.cpp:324-331 | The concatenated blob is exactly as long as the buffers together. |
| RexLogic.NetworkEventHandler.HandleRegionHandshake | ReXLogic/NetworkEventHandler.cpp:348-361 | Skips RegionFlags and SimAccess, stores the SimName string in the server connection, and returns false. |
| RexLogic.RegionHandshakeStoresSimName | ReXLogic/NetworkEventHandler.cpp:348-358 | Only the connection's sim name can change, and it becomes the text of the third variable. A message too short for SimName aborts and changes nothing. |
| RexLogic.NetworkEventHandler.HandleLogoutReply | ReXLogic/NetworkEventHandler.cpp:363-375 | Equals the LogoutReply specification. |
| RexLogic.LogoutReplyClosesOnlyOwnSession | ReXLogic/NetworkEventHandler.cpp:366-373 | The connection is closed exactly when both the agent id and the session id match, and nothing else changes. |
| RexLogic.NetworkEventHandler.HandleAgentMovementComplete | ReXLogic/NetworkEventHandler.cpp:377-392 | Reads position, look-at, region handle and timestamp only when both ids match the connection. It changes no state. |
| RexLogic.AgentMovementCompleteKeepsState | ReXLogic/NetworkEventHandler.cpp:377-392 | The handler state never changes. When the ids are not both ours, the message returns false whatever follows them. When they are, it returns false exactly when position, look-at, region handle and timestamp can all be read. |
| RexLogic.NetworkEventHandler.HandleObjectProperties | ReXLogic/NetworkEventHandler.cpp:241-273 | Equals the ObjectName/ObjectDescription specification: read the first LocalID, find or create the prim entity with that id, and hand the message to its EC_OpenSimPrim's HandleObjectName or HandleObjectDescription. |
| RexLogic.ObjectPropertyHandsMessageToPrim | ReXLogic/NetworkEventHandler.cpp:245-255 | When the LocalID reads, that entity is a prim entity afterwards and exactly this message is handed to it once, with the handler kind. The UUID map and the connection are unchanged. When the LocalID is missing or not a U32, the state is unchanged and the read error is returned. |
| NetMessage.NetInMessage.ReadU32 | ReXLogic/NetworkEventHandler.cpp:178 | A typed read returns the variable at the cursor when it has that type and moves past it. Otherwise it fails and the cursor stays. |
| NetMessage.NetInMessage.SkipToFirstVariableByName | ReXLogic/NetworkEventHandler.cpp:219 | Moves to the first variable with the name at or after the cursor, or fails and stays. |
| NetMessage.FindByName | ReXLogic/NetworkEventHandler.cpp:219 | The position found is the first with that name at or after the cursor. Failure means no later variable has the name. |
| NetMessage.NetInMessage.CheckNextVariableType | ReXLogic/NetworkEventHandler.cpp:310-315 | NetVarNone exactly when the cursor is past the last variable, and otherwise that variable's type. |
| NetMessage.CString | ReXLogic/NetworkEventHandler.cpp:220-222 | A text read keeps the bytes before the first NUL: a NUL-free prefix that is followed by a NUL when it is shorter. |
| RexPrimitive.Primitive.DiscardRequestTags | ReXLogic/Primitive.h:55-56 | Removes the entity's tags from the chosen map only. The other map is untouched. |
| RexPrimitive.DiscardFrom | ReXLogic/Primitive.h:55-62 | The erase loop over the map yields exactly the map without the entity's tags. |
| RexPrimitive.WithoutEntity | ReXLogic/Primitive.h:55-62 | A tag remains exactly when it named another entity, and it keeps that entity. |
| RexPrimitive.DiscardRemovesExactlyThatEntity | ReXLogic/Primitive.h:55-62 | No tag of the entity remains, every other entity keeps exactly its tags, and the map does not grow. |
| RexPrimitive.DiscardIdempotentAndCommutes | ReXLogic/Primitive.h:55-56 | Discarding twice is discarding once, and discards for two entities commute. |
| Asset.AssetTransfer.ReceiveData | AssetModule/AssetManager.h:53 | Stores the chunk under its packet index, replacing an earlier chunk at that index. The received count stays the sum of the stored chunks. |
| Asset.AssetTransfer.GetReceived | AssetModule/AssetManager.h:61 | The received count is the total size of the chunks stored, each index counted once. |
| Asset.ReceiveAllContents | AssetModule/AssetManager.h:53-71 | After a run of packets with distinct indices, each index holds its packet's chunk and every other index holds what it had. |
| Asset.ArrivalOrderIrrelevant | AssetModule/AssetManager.h:53-71 | Packets with distinct indices give the same data map whatever order they arrive in. |
| Asset.RetransmitIdempotent | AssetModule/AssetManager.h:53-71 | Receiving the same packet twice is receiving it once. A later chunk for an index replaces the earlier one. |
| Asset.AssetTransfer.SetAssetType | AssetModule/AssetManager.h:56-59 | GetAssetType then returns the value set, and the stored chunks are unchanged. |
| Asset.AssetTransfer.SetSize | AssetModule/AssetManager.h:57-60 | GetSize then returns the value set, and the stored chunks are unchanged. |
| Asset.AssetTransfer.GetAssetType | AssetModule/AssetManager.h:59 | Returns the stored asset type, the value SetAssetType last stored. |
| Asset.AssetTransfer.GetSize | AssetModule/AssetManager.h:60 | Returns the declared size, and the transfer is ready exactly when its continuous bytes reach that size. |
| Asset.AssetTransfer.GetReceivedContinuous | AssetModule/AssetManager.h:62 | The loop counts the bytes of the unbroken run of indices 0, 1, 2, … that are present. |
| Asset.RunFrom | AssetModule/AssetManager.h:62 | The run starting at an index ends at the first index that is missing. |
| Asset.ContinuousAtMostReceived | AssetModule/AssetManager.h:61-62 | The continuous byte count never exceeds the received count. |
| Asset.AssetTransfer.Ready | AssetModule/AssetManager.h:63 | True exactly when the continuous run covers the declared size. |
| Asset.AssetTransfer.AssembleData | AssetModule/AssetManager.h:54 | When Ready and the buffer has the declared size, the buffer holds the chunks of the run in ascending index order. |
| Asset.ContinuousDataLength | AssetModule/AssetManager.h:54-63 | The assembled bytes are exactly as many as the continuous count. |
| Asset.DataBelowLength | AssetModule/AssetManager.h:54 | The bytes assembled from the chunks below an index total the chunk lengths below it. |
| Asset.BytesBelowMonotone | AssetModule/AssetManager.h:61-62 | Counting the chunks below a larger index never counts fewer bytes. |
| Asset.BytesBelowUpdate | AssetModule/AssetManager.h:53 | Replacing one chunk changes the byte count by exactly the difference of the two chunk lengths. |
| Asset.AssetManager.GetAsset | AssetModule/AssetManager.h:38 | Consults only the completed store: an asset exactly when one is stored under the id. |
| Asset.AssetManager.RequestAsset | AssetModule/AssetManager.h:40 | Equals the request specification: a completed id is a cache hit and an in-flight id is not requested again. Otherwise the request goes to RequestTexture or RequestOtherAsset by asset type. Existing transfers are kept. |
| Asset.AssetManager.RequestTexture | AssetModule/AssetManager.h:74 | Adds one texture transfer and one texture request for an id not yet in flight. |
| Asset.AssetManager.RequestOtherAsset | AssetModule/AssetManager.h:75 | Adds one asset transfer with the type, and one request, for an id not yet in flight. |
| Asset.RequestDeduplicated | AssetModule/AssetManager.h:84-95 | Requesting an id twice is requesting it once, so each registry holds at most one transfer per UUID. |
| Asset.CompletedIsCacheHit | AssetModule/AssetManager.h:88-89 | A request for a completed asset changes nothing. |
| Asset.RequestRoutesByType | AssetModule/AssetManager.h:40 | A request that goes out is a texture request exactly when the type is the texture type, and otherwise a request for that type. |
| Asset.AssetManager.StoreAsset | AssetModule/AssetManager.h:76 | Stores, under the same UUID, an Asset (the record of AssetManager.h:24-29) with the transfer's type and its assembled bytes, as many as its size. The transfer registries are untouched. |
| QtText.Trimmed | src/Core/Console/ConsoleAPI.cpp:128 | The result has no surrounding whitespace and is empty exactly when the text is all whitespace. It is a slice of the text with only whitespace cut from each end. |
| QtText.TrimmedIdempotent | src/Core/Console/ConsoleAPI.cpp:128-139 | Trimming twice is trimming once. |
| QtText.IndexOf | src/Core/Console/ConsoleAPI.cpp:132 | The first occurrence of the character, or none exactly when it does not occur. |
| QtText.IndexOfFirstOccurrence | src/Core/Console/ConsoleAPI.cpp:132 | An occurrence with none before it is the position IndexOf returns. |
| QtText.TrimmedKeepsUnpadded | src/Core/Console/ConsoleAPI.cpp:128 | Text that neither starts nor ends with whitespace is its own trimming. |
| QtText.Split | src/Core/Console/ConsoleAPI.cpp:146 | Split keeps empty parts: at least one part, none containing the separator. |
| QtText.JoinSplit | src/Core/Console/ConsoleAPI.cpp:146 | Joining the parts with the separator gives back the original text. |
| QtText.SplitJoin | src/Core/Console/ConsoleAPI.cpp:146 | Parts free of the separator are recovered by splitting their join. |
| QtText.EqualsIgnoreCaseEquivalence | src/Core/Console/ConsoleAPI.cpp:220-226 | The case-insensitive comparison is reflexive, symmetric and transitive. |
| Console.ParseCommand | src/Core/Console/ConsoleAPI.cpp:126-147 | Text that is empty after trimming leaves both outputs unchanged. Without "(" the name is the whole trimmed text and the parameters are untouched. With "(" the name is the trimmed text before the first "(", and the parameters contain no ",". Joined with "," plus a ")" only when the text ends in one, they give back exactly the text after the "(". |
| Console.ParamsAfter | src/Core/Console/ConsoleAPI.cpp:141-146 | Only a final ")" is removed. The rest after "(" is split on "," with nothing lost. |
| Console.ConsoleAPI.RegisterCommand | src/Core/Console/ConsoleAPI.cpp:99-110 | Equals the registration specification, and returns the command now registered under the name: the new one, or the one already there. |
| Console.ConsoleAPI.RegisterSlotCommand | src/Core/Console/ConsoleAPI.cpp:112-122 | Equals the registration specification, with the slot signature's leading code character dropped. |
| Console.RegisterFirstWins | src/Core/Console/ConsoleAPI.cpp:99-122 | After a first registration of a name, later ones leave the command in place and print the "already registered" warning. |
| Console.RegisterKeepsExisting | src/Core/Console/ConsoleAPI.cpp:99-122 | Registration adds at most the one name and never changes a command already registered. |
| Console.ConsoleAPI.ExecuteCommand | src/Core/Console/ConsoleAPI.cpp:149-167 | Equals the execution specification. This includes the console's own loglevel command, which runs SetLogLevel on its parameter through the slot call. |
| Console.ExecuteEmptyNameDoesNothing | src/Core/Console/ConsoleAPI.cpp:153-156 | An empty parsed name changes nothing. |
| Console.ExecuteUnknownInvokesNothing | src/Core/Console/ConsoleAPI.cpp:158-163 | An unknown name prints the "Cannot find a console command" error and invokes nothing. |
| Console.ExecuteKnownInvokesIt | src/Core/Console/ConsoleAPI.cpp:165-166 | A known name invokes exactly that command with the parsed parameters. The slot call comes first if there is a target, and the Invoked signal always comes last. Nothing is printed unless the command is the console's own loglevel. |
| Console.ExecuteOwnLogLevelSetsIt | src/Core/Console/ConsoleAPI.cpp:46-47 | The console's own loglevel command, given one parameter, records its invocation and then changes the state exactly as SetLogLevel on that parameter does. |
| Console.LogLevelDebugFromCommandLine | src/Core/Console/ConsoleAPI.cpp:46-47 | Typing "loglevel(debug)" on a console with its built-in loglevel command enables all four channels. |
| Console.ParseLogLevelDebug | src/Core/Console/ConsoleAPI.cpp:126-147 | The line "loglevel(debug)" parses to the name loglevel and the single parameter debug. |
| Console.ExecuteKeepsRegistryAndChannels | src/Core/Console/ConsoleAPI.cpp:149-167 | Execution never changes the registry. Only the console's own loglevel command changes the channel mask. |
| Console.ConsoleAPI.SetLogLevel | src/Core/Console/ConsoleAPI.cpp:218-230 | Equals the log-level specification. |
| Console.LevelMaskIgnoresCase | src/Core/Console/ConsoleAPI.cpp:220-226 | Level names that are equal up to case select the same mask. |
| Console.LevelsAreCumulative | src/Core/Console/ConsoleAPI.cpp:218-227 | Setting "error", "warning", "info" or "debug" enables the channel of each rank up to that level and none above it. |
| Console.LogLevelUnknownKeepsChannels | src/Core/Console/ConsoleAPI.cpp:228-229 | Any other level string leaves the enabled channels unchanged and prints one error line. |
| Console.ConsoleAPI.IsLogChannelEnabled | src/Core/Console/ConsoleAPI.cpp:318-321 | True exactly when the channel shares a bit with the enabled mask. |
| Console.ChannelEnabledUnion | src/Core/Console/ConsoleAPI.cpp:318-321 | Asking about several channels at once is asking whether any one of them is enabled. |
| Console.ConsoleAPI.SetEnabledLogChannels | src/Core/Console/ConsoleAPI.cpp:313-326 | EnabledLogChannels afterwards returns exactly the mask set. |
| Console.ConsoleAPI.EnabledLogChannels | src/Core/Console/ConsoleAPI.cpp:323-326 | Returns the channel mask held in the console state, the one the log-level specifications compute. |
| Console.ConsoleAPI.Log | src/Core/Console/ConsoleAPI.cpp:305-311 | Equals the logging specification. |
| Console.LogPrintsOnlyEnabled | src/Core/Console/ConsoleAPI.cpp:305-311 | A line is printed exactly when the channel is enabled, and nothing else changes. |
| Console.ConsoleAPI.LogWarning | src/Core/Console/ConsoleAPI.cpp:285-289 | Prints the message prefixed with "Warning: ". |
| Console.ConsoleAPI.LogError | src/Core/Console/ConsoleAPI.cpp:291-295 | Prints the message prefixed with "Error: ". |
| Console.ConsoleAPI.Print | src/Core/Console/ConsoleAPI.cpp:168-198 | The message is appended to the printed transcript as one line, and nothing else changes. |
| Console.ConsoleAPI.constructor | src/Core/Console/ConsoleAPI.cpp:30-55 | The whole new state is the initial-state specification. help, clear and loglevel are registered on the console itself, with the slots ListCommands(), ClearLog() and SetLogLevel(const QString &). Nothing has been invoked. The mask and the printed lines are those of the --loglevel handling from ErrorWarnInfo. |
| Console.InitialLevelFromLastParameter | src/Core/Console/ConsoleAPI.cpp:33-55 | After construction the registry is the three built-in commands. The last --loglevel parameter decides the mask, and with none or an unknown one ErrorWarnInfo stays. An unknown level prints its error line, and more than one parameter adds the "Ignoring multiple --loglevel" warning after it. |
| Console.ConsoleAPI.ApplyLogLevelParameters | src/Core/Console/ConsoleAPI.cpp:50-55 | The state becomes SetLogLevel's on the last --loglevel parameter, if there is one. The "Ignoring multiple --loglevel command line parameters!" warning is then printed when there are several. |
| OgreView.OgreWorld.StartViewTracking | src/Core/OgreRenderingModule/OgreWorld.cpp:306-319 | Equals the start specification: null or an entity already tracked changes nothing, and any other entity is appended. |
| OgreView.StartKeepsDistinct | src/Core/OgreRenderingModule/OgreWorld.cpp:306-319 | The tracked list stays duplicate-free with the entity in it, and earlier entries keep their places. |
| OgreView.OgreWorld.StopViewTracking | src/Core/OgreRenderingModule/OgreWorld.cpp:321-335 | Equals the stop specification: the first entry for the entity is erased. |
| OgreView.StopErasesOnlyFirst | src/Core/OgreRenderingModule/OgreWorld.cpp:321-335 | Exactly one entry goes when the entity is tracked, and none otherwise. Afterwards the entity is untracked and every other entry remains. |
| OgreView.StartThenStopRestores | src/Core/OgreRenderingModule/OgreWorld.cpp:306-335 | Stopping an entity just started restores the list. |
| OgreView.FirstTracking | src/Core/OgreRenderingModule/OgreWorld.cpp:327-333 | The index found is the first entry for the entity, or none exactly when it is not tracked. |
| OgreView.OgreWorld.OnUpdated | src/Core/OgreRenderingModule/OgreWorld.cpp:337-381 | With nothing tracked, both visible sets are cleared and nothing is emitted. Otherwise the last set becomes the previous current set, and the current set becomes the camera's ids, or empty without a camera. Expired entries are erased, and the signals are exactly those of the view-change specification. |
| OgreView.OgreWorld.PruneAndSignal | src/Core/OgreRenderingModule/OgreWorld.cpp:358-381 | The reverse loop, with its 32-bit unsigned index, visits every entry exactly once. It keeps the live entries in order and emits each entry's signal from last to first. |
| OgreView.OgreWorld.VisitEntry | src/Core/OgreRenderingModule/OgreWorld.cpp:360-380 | An expired entry is erased, and a live one gets its enter or leave signal when its visibility changed. |
| OgreView.Survivors | src/Core/OgreRenderingModule/OgreWorld.cpp:361-362 | Exactly the live entries remain. |
| OgreView.SurvivorsKeepDistinct | src/Core/OgreRenderingModule/OgreWorld.cpp:358-362 | Erasing expired entries keeps the tracked list duplicate-free. |
| OgreView.ViewChangesSound | src/Core/OgreRenderingModule/OgreWorld.cpp:368-380 | Each signal is for a live tracked entity. "Enter view" is only for an id in the current set and not the last, and "leave view" the reverse. An unchanged membership signals nothing, and there is at most one signal per entry. |
| OgreView.ViewChangesComplete | src/Core/OgreRenderingModule/OgreWorld.cpp:368-380 | Every live tracked entity whose membership changed gets its signal. |
| OgreView.Wrap32 | src/Core/OgreRenderingModule/OgreWorld.cpp:358 | Storing into an unsigned 32-bit variable: values in range are kept, and -1 becomes 2^32-1. |
| ComponentDialog.AddComponentDialog.SetComponentList | src/Core/ECEditorModule/AddComponentDialog.cpp:87-94 | The combo box gains every type in input order, as its display name. Filling an empty combo box makes the first display name current and runs the duplicate check for it, as currentIndexChanged does (line 78). Otherwise the current item and the check's outputs are unchanged. |
| ComponentDialog.AddComponentDialog.SelectType | src/Core/ECEditorModule/AddComponentDialog.cpp:78 | Choosing item i makes its text current. The duplicate check runs exactly when the index changes, and otherwise the check's outputs are unchanged. |
| ComponentDialog.DisplayName | src/Core/ECEditorModule/AddComponentDialog.cpp:89-93 | Exactly a leading "EC_" is removed, and types without it are left as they are. |
| ComponentDialog.DisplayNames | src/Core/ECEditorModule/AddComponentDialog.cpp:87-94 | One display name per type, in the same order. |
| ComponentDialog.TypeName | src/Core/ECEditorModule/AddComponentDialog.cpp:101-107 | "EC_" is prepended exactly when the text does not start with it, so the result always starts with "EC_". |
| ComponentDialog.AddComponentDialog.GetTypeName | src/Core/ECEditorModule/AddComponentDialog.cpp:101-106 | The result is the current combo text, with "EC_" put in front when it does not start with it. It always starts with "EC_" and is fixed by the prefixing rule. |
| ComponentDialog.AddComponentDialog.SetComponentName | src/Core/ECEditorModule/AddComponentDialog.cpp:96-99 | The name line edit holds exactly the given text afterwards. A changed text runs the duplicate check, as textChanged does (line 77), and an unchanged one leaves the check's outputs as they were. |
| ComponentDialog.TypeNameIdempotent | src/Core/ECEditorModule/AddComponentDialog.cpp:101-107 | Applying the prefixing rule twice gives the same result as once. |
| ComponentDialog.TypeNameRecoversDisplayed | src/Core/ECEditorModule/AddComponentDialog.cpp:89-106 | For "EC_"+X, where X does not start with "EC_", the display name followed by GetTypeName recovers the type. A type without the prefix comes back prefixed. |
| ComponentDialog.DoublePrefixIsNotRecovered | src/Core/ECEditorModule/AddComponentDialog.cpp:89-106 | A type "EC_EC_X" comes back as "EC_X", so the side condition above is needed. |
| ComponentDialog.FindDuplicate | src/Core/ECEditorModule/AddComponentDialog.cpp:135-146 | The loop with its break flags a duplicate exactly when some selected entity that exists has a component with that type name and name. Missing entities are skipped. |
| ComponentDialog.AddComponentDialog.CheckComponentName | src/Core/ECEditorModule/AddComponentDialog.cpp:129-153 | Without a scene nothing changes. Otherwise the OK button is disabled, and the error text shown, exactly when the prefixed current type and the trimmed name duplicate a component on a selected entity. |
| ScriptComponent.EC_Script.SetScriptInstance | EntityComponents/EC_Script/EC_Script.cpp:20-30 | Equals the specification: a held instance is unloaded and then deleted before the argument is stored. |
| ScriptComponent.InstanceSetReplaces | EntityComponents/EC_Script/EC_Script.cpp:20-30 | Afterwards the held instance is the argument. A previous one was unloaded and deleted, in that order, and nothing ran. |
| ScriptComponent.EC_Script.Run | EntityComponents/EC_Script/EC_Script.cpp:32-48 | Equals the run specification. |
| ScriptComponent.OtherNamesIgnored | EntityComponents/EC_Script/EC_Script.cpp:38-39 | Run and Unload with a non-empty name other than the script ref change nothing. |
| ScriptComponent.RunRunsHeldInstanceOnce | EntityComponents/EC_Script/EC_Script.cpp:41-47 | A Run meant for the component runs the held instance exactly once and no other instance. With no instance it logs the error and runs nothing. |
| ScriptComponent.EC_Script.Unload | EntityComponents/EC_Script/EC_Script.cpp:51-63 | Equals the unload specification. |
| ScriptComponent.UnloadRunsNothing | EntityComponents/EC_Script/EC_Script.cpp:53-62 | Unload applies the same name filter and no-instance guard, and never runs anything. |
| ScriptComponent.EC_Script.HandleAttributeChanged | EntityComponents/EC_Script/EC_Script.cpp:80-84 | Equals the attribute-change specification. |
| ScriptComponent.OnlyScriptRefForwarded | EntityComponents/EC_Script/EC_Script.cpp:80-84 | Only a change of the script ref reaches the asset listener, with its current value. |
| ScriptComponent.EC_Script.SetScriptRef | EntityComponents/EC_Script/EC_Script.cpp:72-84 | Equals the reference-write specification: the new reference is stored and, through OnAttributeChanged, forwarded to the asset listener. |
| ScriptComponent.RefSetRetargetsActions | EntityComponents/EC_Script/EC_Script.cpp:38-84 | After a write the listener has heard the new reference, and the held instance is kept. Run and Unload then act for an empty name or the new reference, and ignore every other name. |

## Left out

- Floating-point values: positions, scales and quaternions are kept as the raw bytes or bit patterns they arrive as. The reinterpretation of the 60-byte object data block, including UnpackQuaternionFromFloat3, is not modelled. The position is the 12 bytes at offset 0 and the orientation the 12 bytes at offset 36.
- NetInMessage's own source (the message templates and the wire encoding) is not part of this model. A message is its decoded list of typed, named variables. Every read is checked, and a read that fails leaves the cursor in place.
- RexLogic.NetworkEventHandler.HandleObjectUpdate: a failed read aborts the handler with an error outcome and keeps the writes made so far. In the C++ a failed read raises an exception, whose handling lies outside the files modelled.
- RexLogic.NetworkEventHandler.ReadFieldsFrom: the straight-line sequence of reads in the prim branch is modelled as a recursion over the fields in wire order. The order and the writes are the same.
- RexLogic.NetworkEventHandler.ReadField: after a failed HoveringText or MediaURL read the cursor's position is not stated, because the skip before the read may already have moved it.
- RexLogic.NetworkEventHandler.GetAvatarEntitySafe: the avatar branch of ObjectUpdate is a stub in the source. Only the find-or-create of an entity without components is modelled.
- Logging through the RexLogic and Poco loggers, the global `::LogWarning` and `::LogError` calls that ConsoleAPI's LogWarning and LogError make before printing, LogInfo text, and DebugCreateOgreBoundingBox are Ogre and logger calls with no effect on the model's state.
- RexLogic.NetworkEventHandler.HandleRexPrimData: `delete` on an array allocated with `new[]` is outside what Dafny can state. The blob is handed over as a sequence.
- The numeric values of EVENT_NETWORK_IN and the RexNetMsg… ids are defined in headers that are not part of this model, so they are datatype alternatives.
- AssetTransfer's member bodies (ReceiveData, AssembleData, GetReceivedContinuous, Ready) are not in the header. The model gives them the meaning the names and fields describe:
  - the received count is the sum of the stored chunk lengths;
  - the continuous count is the run of indices starting at 0;
  - Ready means that run equals the size;
  - AssembleData copies that run.
- Asset.AssetTransfer.GetReceived: received_ is kept as an unbounded count equal to the bytes stored. A 32-bit wrap-around of received_ past 4 GiB is not modelled.
- Asset.AssetManager.RequestAsset: the manager's .cpp is not part of this model. The cache-hit and deduplication rules follow the class's documented role, and the texture type is assumed to be asset type 0.
- The UDP packet handlers HandleTextureHeader, HandleTextureData and HandleTextureCancel have no bodies in the files modelled. The network sends are recorded as outbound requests.
- Console I/O: Print's stdout and log-file output, the trailing-newline handling, ClearLog, SetLogFile, the shell input thread, key handling and ListCommands. Printed lines are kept as a transcript.
- ConsoleCommand::Invoke's FunctionInvoker call, the slot's return value and its error message. The invocation is recorded as a slot call followed by the Invoked signal. Script handlers of the Invoked signal are outside the console.
- Console.ConsoleAPI.ExecuteCommand: of the console's own commands only loglevel acts, running SetLogLevel when given exactly one parameter. help and clear are recorded as slot calls only. ListCommands' listing of every command, in the registry's key order, is not modelled, and ClearLog clears the widget and the terminal, which is I/O. A loglevel call with no parameter or several makes FunctionInvoker report an argument mismatch, and that error text is not part of this model, so the model only records the slot call.
- RexLogic.NetworkEventHandler.HandleObjectProperties: EC_OpenSimPrim's HandleObjectName and HandleObjectDescription are not part of this model. The message handed to them is recorded with the entity id and the handler kind.
- Asset.AssetManager.GetAsset: GetAsset takes the asset id as a `std::string`, while the model keys both registries by UUID value.
- The log channel bit values (Error 1, Warning 2, Info 4, Debug 8) are defined in ConsoleAPI.h, which is not part of this model. One bit per channel in that order is assumed.
- Console.ConsoleAPI.RegisterSlotCommand requires a non-empty slot signature, as SLOT() always produces. The C++ pointer arithmetic `memberSlot+1` is undefined on an empty string.
- QtText.Trimmed and QtText.EqualsIgnoreCase: whitespace and case folding cover ASCII only. Qt's Unicode whitespace classes and case mapping are not modelled.
- OgreView.OgreWorld.OnUpdated requires fewer than 2^32 tracked entities, because the unsigned loop index only terminates for lists shorter than its range. Entity identity is the handle, and a weak reference has expired when its handle is not among the live entities. The two signals per change (the world's and the entity's) are one recorded event.
- The raycasts, frustum query, shadow setup and debug drawing of OgreWorld, and the widget construction of AddComponentDialog, are rendering and UI wiring.
- EC_Script's destructor, ScriptAssetLoaded and RegisterActions are outside the modelled operations. The asset listener is recorded as the AssetRefChanged event.
- ComponentDialog.AddComponentDialog.SetComponentList: the main camera scene that CheckComponentName asks the framework for is a parameter of every method that can run the check. QComboBox emits currentIndexChanged while the first item is being added, and that check is made once all the items are in, which gives the same result. The combo box is created with QComboBox's default, not editable (line 50), so its current text is always an item or "".
- ScriptComponent.EC_Script.SetScriptRef: IAttribute's own Set and change-type handling are not part of this model. A write is the new reference followed by one OnAttributeChanged delivery.
- The handlers run one at a time on one thread. Concurrency is not modelled.

## Findings

| source | as written | input that shows it | evidently intended | confidence | as-written member | corrected member |
|---|---|---|---|---|---|---|
| ReXLogic/NetworkEventHandler.cpp:88-115 | Both GetOrCreatePrimEntity overloads return an existing entity as it is (the todos at lines 97 and 113). The callers then dereference its EC_OpenSimPrim: HandleOSNE_ObjectUpdate at lines 191-192 (with EC_OgrePlaceable), and HandleOSNE_ObjectName and HandleOSNE_ObjectDescription at lines 252-253 and 269-270. | An ObjectUpdate with PCode 0x2f creates an avatar entity with no components under local id 7. A later ObjectUpdate with PCode 0x09 for local id 7 gets that entity back without EC_OpenSimPrim (two-argument overload). So does a later ObjectName or ObjectDescription message for local id 7 (one-argument overload). | The contract at ReXLogic/Primitive.h:35-36: the returned entity always has an EC_OpenSimPrim component. The missing prim components are added. | not executed | PrimScene.AsWrittenReturnsEntityWithoutPrim | PrimScene.FindOrCreatePrim |
