# Jupiter `Item`: entity, builder and wire mapping

This project models the `Item` entity of the Jupiter backend
(`src/main/java/com/laioffer/jupiter/entity/Item.java`). An `Item` is one
stream or game from the upstream platform, normalized to one shape. The
model covers three parts:

- **Construction.** The nested `Builder` has seven chained setters. Each
  records one field and returns the builder itself. `build()` hands the
  builder to the private `Item` constructor, which copies all seven fields.
  Only `Builder.Build` calls the `Item` constructor.
- **The entity.** `id`, `title` and `thumbnailUrl` are `final` in Java.
  They are `const` fields of the Dafny class, so only the constructor can
  set them. `broadcasterName`, `url`, `gameId` and `type` are `var` fields.
  The only methods that change an `Item` are `SetUrl`, `SetGameId` and
  `SetType`. `broadcasterName` is not `final` but has no setter, so the
  model gives `Item` no method that changes it.
- **The wire mapping that the Jackson annotations declare.** Encoding writes
  each non-null property under its fixed key (`id`, `title`,
  `thumbnail_url`, `broadcaster_name`, `url`, `game_id`, `item_type`) and
  leaves every null property out. Decoding also accepts `user_name` as an
  alias for `broadcaster_name` and ignores every unknown key. It goes
  through the builder. Jackson assigns the builder's annotated fields
  directly, because the chained builder methods have no `with` prefix. It
  makes one assignment for each property the document names, then calls
  `build()`. Each chained builder method only assigns its field, so the
  effect on the builder is the same as calling it.

Java `null` is `None` of an `Option`. The constants of the `ItemType` enum
are not part of this model, so `ItemType` is an opaque type. The wire form
is an abstract JSON object, `map<string, WireValue>`. A `WireValue` is
one of:

- a JSON string that names an `ItemType` constant (`Kind`);
- any other JSON string (`Text`);
- a number, kept as its literal text (`Number`);
- a boolean (`Bool`);
- an array or object (`Nested`);
- an explicit JSON null (`Null`).

A String property takes any scalar as text. A constant gives its name, a
number its literal, and a boolean `"true"` or `"false"`. The `item_type`
property takes only a constant or null. An array or object fails to bind
anywhere. The name of a constant (`ItemJson.Name`) is left unspecified,
as the constants are.

Files:

- `wrappers.dfy`: `Option` and `Result`.
- `item.dfy` (module `ItemEntity`): `ItemType`, the snapshot datatype
  `Fields`, and the classes `Builder` and `Item`. Each class has a
  `State()` function giving its seven fields as a `Fields` value.
- `item_json.dfy`:
  - Module `ItemJson` holds the two key tables. `Key` is `Item`'s table;
    `Names` and `Lookup` are `Builder`'s table with its alias. It also holds
    the pure `Encode` and `Decode`, and the method `DecodeItem`. That
    method decodes by assigning the fields of a real `Builder` and calling
    `Build`, and it is proved to agree with `Decode`.
  - Module `ItemJsonLaws` holds the lemmas: the round trip in both
    directions, alias, unknown-key and absent-key, and a worked document.

## Model

| member | source | states |
|---|---|---|
| `ItemEntity.Builder.constructor` | src/main/java/com/laioffer/jupiter/entity/Item.java:98-119 | a new builder has all seven fields null |
| `ItemEntity.Builder.Id` | src/main/java/com/laioffer/jupiter/entity/Item.java:121-124 | sets `id` to the argument, leaves the other six fields unchanged, returns the same builder |
| `ItemEntity.Builder.Title` | src/main/java/com/laioffer/jupiter/entity/Item.java:126-129 | sets `title` only and returns the same builder |
| `ItemEntity.Builder.Url` | src/main/java/com/laioffer/jupiter/entity/Item.java:131-134 | sets `url` only and returns the same builder |
| `ItemEntity.Builder.ThumbnailUrl` | src/main/java/com/laioffer/jupiter/entity/Item.java:136-139 | sets `thumbnailUrl` only and returns the same builder |
| `ItemEntity.Builder.BroadcasterName` | src/main/java/com/laioffer/jupiter/entity/Item.java:141-144 | sets `broadcasterName` only and returns the same builder |
| `ItemEntity.Builder.GameId` | src/main/java/com/laioffer/jupiter/entity/Item.java:146-149 | sets `gameId` only and returns the same builder |
| `ItemEntity.Builder.Type` | src/main/java/com/laioffer/jupiter/entity/Item.java:151-154 | sets `type` only and returns the same builder |
| `ItemEntity.Builder.Build` | src/main/java/com/laioffer/jupiter/entity/Item.java:156-158 | returns a fresh `Item` whose seven fields equal the builder's at the call; the builder is not modified |
| `ItemEntity.Item.constructor` | src/main/java/com/laioffer/jupiter/entity/Item.java:44-52 | the new item's seven fields are the builder's seven fields; `id`, `title`, `thumbnailUrl` are `const` afterwards |
| `ItemEntity.Item.SetUrl` | src/main/java/com/laioffer/jupiter/entity/Item.java:66-69 | changes `url` only; `id`, `title`, `thumbnailUrl`, `broadcasterName`, `gameId`, `type` keep their values; returns the same item |
| `ItemEntity.Item.SetGameId` | src/main/java/com/laioffer/jupiter/entity/Item.java:82-85 | changes `gameId` only and returns the same item |
| `ItemEntity.Item.SetType` | src/main/java/com/laioffer/jupiter/entity/Item.java:91-94 | changes `type` only and returns the same item |
| `ItemEntity.LastWriteWins` | src/main/java/com/laioffer/jupiter/entity/Item.java:121-158 | chained setters: the second write to `id` wins over the first, and a write to `title` between them survives |
| `ItemJson.NamesBindBack` | src/main/java/com/laioffer/jupiter/entity/Item.java:99-119 | a name is in a property's accepted names (key or alias) exactly when decoding binds it to that property |
| `ItemJson.KeysBindBack` | src/main/java/com/laioffer/jupiter/entity/Item.java:18-42 | every key `Item` writes binds back to the same property in `Builder`'s table, so no two properties share a key |
| `ItemJson.Bind` | src/main/java/com/laioffer/jupiter/entity/Item.java:99-119 | binding a wire value to the field of p sets p alone. The stored value is the scalar coerced to text for a String field, the constant for `item_type`, and null for an explicit null. Every other property is left as it was. Binding fails with `Mismatch(p)` exactly when the value cannot be bound: an array or object, or anything but a constant or null under `item_type` |
| `ItemJson.DecodePropsSpec` | src/main/java/com/laioffer/jupiter/entity/Item.java:99-119 | feeding properties ps succeeds exactly when every value found for them fits; a failure names an offending property of ps; on success the named properties hold their incoming values and the rest keep theirs |
| `ItemJson.Decode` | src/main/java/com/laioffer/jupiter/entity/Item.java:96-119 | decoding succeeds exactly when every found value fits its property; on success each property holds the value found under its key or alias, bound as `Bind` states, and null when absent or explicitly null |
| `ItemJson.EncodeProps` | src/main/java/com/laioffer/jupiter/entity/Item.java:18-42 | for the listed properties: a key is written exactly for each non-null property, with that property's value, and no other key |
| `ItemJson.Encode` | src/main/java/com/laioffer/jupiter/entity/Item.java:15-42 | the key of a property is present exactly when the property is non-null, with its value; only fixed keys are written, never an alias, never an explicit null |
| `ItemJson.Absorb` | src/main/java/com/laioffer/jupiter/entity/Item.java:99-119 | performs one decoding step on a real `Builder`: the annotated field of p is assigned the bound value. When the value cannot be bound, the step fails and the builder is unchanged |
| `ItemJson.DecodeItem` | src/main/java/com/laioffer/jupiter/entity/Item.java:16 | decoding through a fresh `Builder` and `Build` yields a fresh `Item` whose fields are `Decode`'s result, or exactly `Decode`'s error |
| `ItemJsonLaws.AliasNotEncoded` | src/main/java/com/laioffer/jupiter/entity/Item.java:31-33 | the alias `user_name` is never written by encoding |
| `ItemJsonLaws.RoundTrip` | src/main/java/com/laioffer/jupiter/entity/Item.java:18-42 | the encoding of any item is unambiguous and decodes back to the same seven fields |
| `ItemJsonLaws.FoundUnderKey` | src/main/java/com/laioffer/jupiter/entity/Item.java:111-113 | in a document whose keys are all fixed keys, each property is found under its own key or not at all; the alias plays no part |
| `ItemJsonLaws.EncodeOf` | src/main/java/com/laioffer/jupiter/entity/Item.java:15-42 | encoding yields a given document with fixed keys whenever each property's value is the one under its key, so encoding is determined key by key |
| `ItemJsonLaws.EncodeDecode` | src/main/java/com/laioffer/jupiter/entity/Item.java:14-42 | the other direction of the round trip. A document is decoded without error and re-encoded to itself when its keys are all fixed keys and its values are all values encoding writes. |
| `ItemJsonLaws.KnownKeysSurvive` | src/main/java/com/laioffer/jupiter/entity/Item.java:14-42 | a document with keys `id`, `title`, `game_id` and one unknown key decodes to an item with those three fields set and the rest null; re-encoding it gives exactly the three known keys |
| `ItemJsonLaws.DecodePropsSameFound` | src/main/java/com/laioffer/jupiter/entity/Item.java:99-119 | decoding depends on the document only through the value found for each property, errors included |
| `ItemJsonLaws.DecodeIgnoresUnknownKeys` | src/main/java/com/laioffer/jupiter/entity/Item.java:96 | two documents that agree on every known name decode to the same result, whatever unknown keys they hold |
| `ItemJsonLaws.UnknownKeyIgnored` | src/main/java/com/laioffer/jupiter/entity/Item.java:14 | adding a key that binds to no property keeps the document unambiguous and leaves the decoded result unchanged |
| `ItemJsonLaws.AbsentKeyDecodesToNull` | src/main/java/com/laioffer/jupiter/entity/Item.java:99-119 | a property none of whose names is present decodes to null |
| `ItemJsonLaws.AliasDecodesAsKey` | src/main/java/com/laioffer/jupiter/entity/Item.java:111-113 | when no name of property p is present, adding a value under any alias of p decodes exactly like adding it under p's own key |
| `ItemJsonLaws.UserNameIsBroadcasterName` | src/main/java/com/laioffer/jupiter/entity/Item.java:31-32 | when neither `broadcaster_name` nor `user_name` is present, adding `user_name` → X decodes exactly like adding `broadcaster_name` → X |

## Left out

- `GameServlet` (`doGet`, `doPost`) is not part of this model. It is servlet
  I/O: it reads the request, writes the response and calls the upstream
  Twitch client, which is not part of this model.
- The JSON text is not modelled: no parsing or printing, and no
  malformed-text error. The wire form is an abstract key-to-value map, so
  it records neither key order nor duplicate keys.
- `ItemJson.Decode` requires `Unambiguous`, which means no two present
  keys bind the same property (in practice, not both `broadcaster_name`
  and `user_name`). When both are present, the source's result depends on
  their order in the JSON text, which a map does not record.
- `ItemJson.Decode`: Jackson reports the first value of the wrong kind in
  document order. The model checks properties in table order. So when
  several values are of the wrong kind, the contract says only that the
  error names one of them.
- The constants of `ItemType` and their names are not part of this
  model. So the model cannot tell from a string's text whether it names a
  constant; it has to be given as `Kind` or `Text`. `Text(s)` under
  `item_type` is a string that names no constant, and it fails to bind, as
  in Jackson. `Text(Name(t))` and `Kind(t)` would be the same JSON string;
  the model does not relate them.
- `ItemJson.Bind`: Jackson reads an integer under `item_type` as the
  ordinal of a constant. The model has no ordinals and reports
  `Mismatch(Type)` for any `Number` there.
- Jackson's optional coercions are set off by default, and the model has
  none of them. These include a single-element array read as its element,
  an empty string read as null, and an unknown enum name read as null.
- The getters (`getId`, `getTitle`, `getUrl`, `getThumbnailUrl`,
  `getBroadcasterName`, `getGameId`, `getType`) are plain reads of the
  Dafny fields, so they have no members of their own.
- Java visibility has no Dafny counterpart. In Java, the `Item`
  constructor and the builder fields are `private`, and so are `Item`'s
  four non-final fields (`broadcasterName`, `url`, `gameId`, `type`). In
  the model, any method that `modifies` an `Item` can assign those four
  `var` fields. Only `Builder.Build` calls the `Item` constructor, and only
  `SetUrl`, `SetGameId` and `SetType` write an `Item`'s fields, but the
  language does not enforce either rule.
