/** The wire mapping of Item that its Jackson annotations declare.

    The wire form is an abstract JSON object: a map from key to value, with
    no text syntax. A property is encoded under its fixed key and left out
    when null. Decoding looks each property up under its key or one of its
    aliases, ignores every other key, and stores what it finds in the
    Builder's annotated field (Jackson assigns those fields directly; the
    chained setters, without a `with` prefix, are not used on decode); a
    property whose key is absent keeps the builder's initial null. Then it
    calls build(). */
module ItemJson {
  import opened Wrappers
  import opened ItemEntity

  /** A JSON value as the data binder sees it. A JSON string is Kind(t)
      when it is the name of the ItemType constant t and Text otherwise; a
      number keeps its literal text; Nested is an array or an object. */
  datatype WireValue =
    | Text(s: string)
    | Kind(t: ItemType)
    | Number(literal: string)
    | Bool(b: bool)
    | Nested
    | Null

  /** The name of an ItemType constant, as Java's name() gives it. The
      constants are not part of this model, so their names are left
      unspecified. */
  const Name: ItemType -> string

  type Wire = map<string, WireValue>

  /** The seven annotated properties. */
  datatype Prop = Id | Title | ThumbnailUrl | BroadcasterName | Url | GameId | Type

  /** Decoding fails only when a value cannot be bound to its property:
      an array or object anywhere, or anything but a constant's name under
      item_type. */
  datatype DecodeError = Mismatch(prop: Prop)

  /** The property table, in the order Item declares its fields. */
  const Table: seq<Prop> := [Id, Title, ThumbnailUrl, BroadcasterName, Url, GameId, Type]

  /** The key Item's annotations write each property under. */
  function Key(p: Prop): string {
    match p
    case Id => "id"
    case Title => "title"
    case ThumbnailUrl => "thumbnail_url"
    case BroadcasterName => "broadcaster_name"
    case Url => "url"
    case GameId => "game_id"
    case Type => "item_type"
  }

  /** The names Builder's annotations accept for each property on decode:
      its JsonProperty name, then its JsonAlias names. */
  function Names(p: Prop): seq<string> {
    match p
    case Id => ["id"]
    case Title => ["title"]
    case ThumbnailUrl => ["thumbnail_url"]
    case BroadcasterName => ["broadcaster_name", "user_name"]
    case Url => ["url"]
    case GameId => ["game_id"]
    case Type => ["item_type"]
  }

  /** Which Builder property, if any, a wire key binds to on decode. This
      is the inverse of Names, written out: Names gives the order in which a
      property's names are tried, Lookup classifies an arbitrary key without
      a search through the table. NamesBindBack proves the two agree. */
  function Lookup(name: string): (r: Option<Prop>)
    ensures r.Some? ==> name in Names(r.value)
  {
    if name == "id" then Some(Id)
    else if name == "title" then Some(Title)
    else if name == "thumbnail_url" then Some(ThumbnailUrl)
    else if name == "broadcaster_name" || name == "user_name" then Some(BroadcasterName)
    else if name == "url" then Some(Url)
    else if name == "game_id" then Some(GameId)
    else if name == "item_type" then Some(Type)
    else None
  }

  /** Names and Lookup are the same table read two ways: every name of a
      property binds back to it, and to nothing else. */
  lemma NamesBindBack(p: Prop, name: string)
    ensures name in Names(p) <==> Lookup(name) == Some(p)
  {
    match p
    case Id =>
    case Title =>
    case ThumbnailUrl =>
    case BroadcasterName =>
    case Url =>
    case GameId =>
    case Type =>
  }

  /** The Item and Builder tables agree: every key Item writes binds back
      to the same property on decode; in particular no two properties share
      a key. */
  lemma KeysBindBack()
    ensures forall p :: Lookup(Key(p)) == Some(p)
  {
    forall p ensures Lookup(Key(p)) == Some(p) {
      NamesBindBack(p, Key(p));
    }
  }

  /** The table lists every property. */
  lemma TableComplete()
    ensures forall p :: p in Table
  {
    forall p ensures p in Table {
      match p
      case Id =>
      case Title =>
      case ThumbnailUrl =>
      case BroadcasterName =>
      case Url =>
      case GameId =>
      case Type =>
    }
  }

  /** A document is unambiguous when no two of its keys bind the same
      property (in practice: not both broadcaster_name and user_name).
      Which of two such keys wins depends on the order of the keys in the
      JSON text, which a map does not record. */
  predicate Unambiguous(m: Wire) {
    forall n1, n2 :: n1 in m && n2 in m && Lookup(n1).Some? && Lookup(n1) == Lookup(n2) ==> n1 == n2
  }

  function TextOf(o: Option<string>): Option<WireValue> {
    if o.Some? then Some(Text(o.value)) else None
  }

  /** The value property p of f takes on the wire, or None when it is null. */
  function WireOf(f: Fields, p: Prop): Option<WireValue> {
    match p
    case Id => TextOf(f.id)
    case Title => TextOf(f.title)
    case ThumbnailUrl => TextOf(f.thumbnailUrl)
    case BroadcasterName => TextOf(f.broadcasterName)
    case Url => TextOf(f.url)
    case GameId => TextOf(f.gameId)
    case Type => if f.itemType.Some? then Some(Kind(f.itemType.value)) else None
  }

  /** Two snapshots with the same wire value for every property are equal. */
  lemma WireOfDetermines(a: Fields, b: Fields)
    requires forall p :: WireOf(a, p) == WireOf(b, p)
    ensures a == b
  {
    assert WireOf(a, Id) == WireOf(b, Id);
    assert WireOf(a, Title) == WireOf(b, Title);
    assert WireOf(a, ThumbnailUrl) == WireOf(b, ThumbnailUrl);
    assert WireOf(a, BroadcasterName) == WireOf(b, BroadcasterName);
    assert WireOf(a, Url) == WireOf(b, Url);
    assert WireOf(a, GameId) == WireOf(b, GameId);
    assert WireOf(a, Type) == WireOf(b, Type);
  }

  /** The text a String property takes from a scalar: a string as it is, a
      constant by its name, a number by its literal, a boolean as "true" or
      "false"; null, and an array or object, give none. */
  function AsText(w: WireValue): Option<string> {
    match w
    case Text(s) => Some(s)
    case Kind(t) => Some(Name(t))
    case Number(literal) => Some(literal)
    case Bool(b) => Some(if b then "true" else "false")
    case Nested => None
    case Null => None
  }

  /** Whether wire value w can be bound to property p: a String property
      takes any scalar or null, item_type only a constant or null. */
  predicate Fits(p: Prop, w: WireValue) {
    if p == Type then w.Kind? || w.Null? else !w.Nested?
  }

  /** The wire value property p holds after w is bound to it; None when an
      explicit null is bound. */
  function Stored(p: Prop, w: WireValue): Option<WireValue> {
    if w.Null? then None
    else if p == Type then Some(w)
    else TextOf(AsText(w))
  }

  function SetText(f: Fields, p: Prop, s: Option<string>): Fields {
    match p
    case Id => f.(id := s)
    case Title => f.(title := s)
    case ThumbnailUrl => f.(thumbnailUrl := s)
    case BroadcasterName => f.(broadcasterName := s)
    case Url => f.(url := s)
    case GameId => f.(gameId := s)
    case Type => f
  }

  /** Binding wire value w to the Builder field of property p: it sets p
      alone, to the coerced value (null for an explicit null), and fails on
      a value that cannot be bound. */
  function Bind(f: Fields, p: Prop, w: WireValue): (r: Result<Fields, DecodeError>)
    ensures r.Ok? <==> Fits(p, w)
    ensures r.Err? ==> r.error == Mismatch(p)
    ensures r.Ok? ==> WireOf(r.value, p) == Stored(p, w)
    ensures r.Ok? ==> forall q :: q != p ==> WireOf(r.value, q) == WireOf(f, q)
  {
    if !Fits(p, w) then Err(Mismatch(p))
    else if p == Type then Ok(f.(itemType := if w.Kind? then Some(w.t) else None))
    else Ok(SetText(f, p, AsText(w)))
  }

  /** The first of the given names that the document contains. */
  function FirstPresent(m: Wire, names: seq<string>): (r: Option<string>)
    ensures r.Some? ==> r.value in m && r.value in names
    ensures r.None? <==> forall n :: n in names ==> n !in m
  {
    if names == [] then None
    else if names[0] in m then Some(names[0])
    else FirstPresent(m, names[1..])
  }

  /** The value the document carries for property p, under its key or an
      alias, if any. */
  function Found(m: Wire, p: Prop): Option<WireValue> {
    match FirstPresent(m, Names(p))
    case None => None
    case Some(n) => Some(m[n])
  }

  /** The value p holds after decoding m: null when no name of p is present
      or when the document gives an explicit null. */
  function Incoming(m: Wire, p: Prop): Option<WireValue> {
    match Found(m, p)
    case None => None
    case Some(w) => Stored(p, w)
  }

  predicate FitsFound(m: Wire, p: Prop) {
    Found(m, p).None? || Fits(p, Found(m, p).value)
  }

  /** One decoding step: the field of p is assigned only when the document
      names p. */
  function Accept(m: Wire, p: Prop, f: Fields): (r: Result<Fields, DecodeError>)
    ensures r.Ok? <==> FitsFound(m, p)
    ensures r.Err? ==> r.error == Mismatch(p)
    ensures r.Ok? ==> WireOf(r.value, p) == (if Found(m, p).Some? then Incoming(m, p) else WireOf(f, p))
    ensures r.Ok? ==> forall q :: q != p ==> WireOf(r.value, q) == WireOf(f, q)
  {
    match Found(m, p)
    case None => Ok(f)
    case Some(w) => Bind(f, p, w)
  }

  /** Feeds the document to the builder state f, property by property. */
  function DecodeProps(m: Wire, ps: seq<Prop>, f: Fields): Result<Fields, DecodeError> {
    if ps == [] then Ok(f)
    else
      var next :- Accept(m, ps[0], f);
      DecodeProps(m, ps[1..], next)
  }

  /** Feeding properties ps succeeds exactly when each value found for them
      fits; a failure names an offending property; on success each of ps
      that the document names holds its incoming value and every other
      property keeps its value from f. */
  lemma {:induction false} DecodePropsSpec(m: Wire, ps: seq<Prop>, f: Fields)
    ensures DecodeProps(m, ps, f).Ok? <==> forall p :: p in ps ==> FitsFound(m, p)
    ensures DecodeProps(m, ps, f).Err? ==>
      DecodeProps(m, ps, f).error.prop in ps && !FitsFound(m, DecodeProps(m, ps, f).error.prop)
    ensures DecodeProps(m, ps, f).Ok? ==> forall p ::
      WireOf(DecodeProps(m, ps, f).value, p) == (if p in ps && Found(m, p).Some? then Incoming(m, p) else WireOf(f, p))
  {
    if ps != [] {
      match Accept(m, ps[0], f)
      case Err(_) =>
      case Ok(next) => DecodePropsSpec(m, ps[1..], next);
    }
  }

  /** Decoding a document into the builder's final state. */
  function Decode(m: Wire): (r: Result<Fields, DecodeError>)
    requires Unambiguous(m)
    ensures r.Ok? <==> forall p :: FitsFound(m, p)
    ensures r.Err? ==> !FitsFound(m, r.error.prop)
    ensures r.Ok? ==> forall p :: WireOf(r.value, p) == Incoming(m, p)
  {
    DecodePropsSpec(m, Table, Unset);
    TableComplete();
    DecodeProps(m, Table, Unset)
  }

  /** Encodes the properties ps of f, skipping every null one. */
  function EncodeProps(f: Fields, ps: seq<Prop>): (m: Wire)
    ensures forall p :: p in ps ==> (Key(p) in m <==> WireOf(f, p).Some?)
    ensures forall p :: p in ps && Key(p) in m ==> m[Key(p)] == WireOf(f, p).value
    ensures forall k :: k in m ==> Lookup(k).Some? && Lookup(k).value in ps && k == Key(Lookup(k).value)
  {
    if ps == [] then map[]
    else
      KeysBindBack();
      var rest := EncodeProps(f, ps[1..]);
      match WireOf(f, ps[0])
      case None => rest
      case Some(w) => rest[Key(ps[0]) := w]
  }

  /** Encoding an Item's properties: every non-null property appears under
      its fixed key, every null one is left out, no explicit null and no
      alias or other key is ever written. */
  function Encode(f: Fields): (m: Wire)
    ensures forall p :: Key(p) in m <==> WireOf(f, p).Some?
    ensures forall p :: Key(p) in m ==> m[Key(p)] == WireOf(f, p).value
    ensures forall k :: k in m ==> Lookup(k).Some? && k == Key(Lookup(k).value)
    ensures forall k :: k in m ==> m[k] != Null
  {
    TableComplete();
    assert forall p :: WireOf(f, p) != Some(Null);
    EncodeProps(f, Table)
  }

  /** DecodeProps takes its first property, then goes on with the rest. */
  lemma DecodeFirst(m: Wire, ps: seq<Prop>, f: Fields)
    requires ps != []
    ensures DecodeProps(m, ps, f) ==
      match Accept(m, ps[0], f)
      case Err(e) => Err(e)
      case Ok(g) => DecodeProps(m, ps[1..], g)
  {
  }

  /** The assignment to the builder's annotated field of p made when the
      document names p; on a value that cannot be bound the builder is left
      as it was. */
  method Absorb(b: Builder, m: Wire, p: Prop) returns (ok: bool)
    modifies b
    ensures ok == Accept(m, p, old(b.State())).Ok?
    ensures b.State() == if ok then Accept(m, p, old(b.State())).value else old(b.State())
  {
    match Found(m, p)
    case None =>
      ok := true;
    case Some(w) =>
      ok := Fits(p, w);
      if ok {
        match p
        case Id => b.id := AsText(w);
        case Title => b.title := AsText(w);
        case ThumbnailUrl => b.thumbnailUrl := AsText(w);
        case BroadcasterName => b.broadcasterName := AsText(w);
        case Url => b.url := AsText(w);
        case GameId => b.gameId := AsText(w);
        case Type => b.itemType := if w.Kind? then Some(w.t) else None;
      }
  }

  /** Decoding runs through the Builder: a fresh builder has the field of
      each property the document names assigned, in table order, and then
      builds the Item. The outcome is the pure Decode. */
  method DecodeItem(m: Wire) returns (r: Result<Item, DecodeError>)
    requires Unambiguous(m)
    ensures r.Ok? ==> fresh(r.value) && Decode(m) == Ok(r.value.State())
    ensures r.Err? ==> Decode(m) == Err(r.error)
  {
    var b := new Builder();
    ghost var rest := Table;
    var ok: bool;
    assert Decode(m) == DecodeProps(m, rest, b.State());
    DecodeFirst(m, rest, b.State());
    ok := Absorb(b, m, Id);
    if !ok { return Err(Mismatch(Id)); }
    rest := rest[1..];
    DecodeFirst(m, rest, b.State());
    ok := Absorb(b, m, Title);
    if !ok { return Err(Mismatch(Title)); }
    rest := rest[1..];
    DecodeFirst(m, rest, b.State());
    ok := Absorb(b, m, ThumbnailUrl);
    if !ok { return Err(Mismatch(ThumbnailUrl)); }
    rest := rest[1..];
    DecodeFirst(m, rest, b.State());
    ok := Absorb(b, m, BroadcasterName);
    if !ok { return Err(Mismatch(BroadcasterName)); }
    rest := rest[1..];
    DecodeFirst(m, rest, b.State());
    ok := Absorb(b, m, Url);
    if !ok { return Err(Mismatch(Url)); }
    rest := rest[1..];
    DecodeFirst(m, rest, b.State());
    ok := Absorb(b, m, GameId);
    if !ok { return Err(Mismatch(GameId)); }
    rest := rest[1..];
    DecodeFirst(m, rest, b.State());
    ok := Absorb(b, m, Type);
    if !ok { return Err(Mismatch(Type)); }
    rest := rest[1..];
    assert rest == [];
    var item := b.Build();
    return Ok(item);
  }
}

/** Properties of the wire mapping. */
module ItemJsonLaws {
  import opened Wrappers
  import opened ItemEntity
  import opened ItemJson

  /** Encoding never writes an alias. */
  lemma AliasNotEncoded(f: Fields)
    ensures "user_name" !in Encode(f)
  {
    assert Lookup("user_name") == Some(BroadcasterName);
    assert Key(BroadcasterName) != "user_name";
  }

  /** The encoded document carries each property under its key alone. */
  lemma FoundInEncoded(f: Fields, p: Prop)
    ensures Found(Encode(f), p) == WireOf(f, p)
  {
    AliasNotEncoded(f);
    var m := Encode(f);
    assert FirstPresent(m, Names(p)) == if Key(p) in m then Some(Key(p)) else None;
  }

  /** A non-null property value fits its property and is stored as it is. */
  lemma WireOfFits(f: Fields, p: Prop)
    ensures WireOf(f, p).Some? ==> Fits(p, WireOf(f, p).value) && Stored(p, WireOf(f, p).value) == WireOf(f, p)
  {
  }

  /** Decoding what encoding wrote gives back every property: the key
      tables of Item and Builder are the same. */
  lemma RoundTrip(f: Fields)
    ensures Unambiguous(Encode(f))
    ensures Decode(Encode(f)) == Ok(f)
  {
    var m := Encode(f);
    forall p ensures FitsFound(m, p) && Incoming(m, p) == WireOf(f, p) {
      FoundInEncoded(f, p);
      WireOfFits(f, p);
    }
    WireOfDetermines(Decode(m).value, f);
  }

  /** Decoding reads the document only through Found: two documents that
      carry the same value for every property decode alike, errors
      included. */
  lemma {:induction false} DecodePropsSameFound(m1: Wire, m2: Wire, ps: seq<Prop>, f: Fields)
    requires forall p :: p in ps ==> Found(m1, p) == Found(m2, p)
    ensures DecodeProps(m1, ps, f) == DecodeProps(m2, ps, f)
  {
    if ps != [] {
      assert Accept(m1, ps[0], f) == Accept(m2, ps[0], f);
      if Accept(m1, ps[0], f).Ok? {
        DecodePropsSameFound(m1, m2, ps[1..], Accept(m1, ps[0], f).value);
      }
    }
  }

  lemma DecodeSameFound(m1: Wire, m2: Wire)
    requires Unambiguous(m1) && Unambiguous(m2)
    requires forall p :: Found(m1, p) == Found(m2, p)
    ensures Decode(m1) == Decode(m2)
  {
    DecodePropsSameFound(m1, m2, Table, Unset);
  }

  /** FirstPresent depends only on which of the given names are present. */
  lemma {:induction false} FirstPresentAgree(m1: Wire, m2: Wire, names: seq<string>)
    requires forall n :: n in names ==> (n in m1 <==> n in m2)
    ensures FirstPresent(m1, names) == FirstPresent(m2, names)
  {
    if names != [] && names[0] !in m1 {
      FirstPresentAgree(m1, m2, names[1..]);
    }
  }

  /** Every key of m is the fixed key of the property it binds to: no
      alias and no unknown key. */
  predicate FixedKeys(m: Wire) {
    forall k :: k in m ==> Lookup(k).Some? && k == Key(Lookup(k).value)
  }

  /** w is what encoding writes for some value of p: it fits p, is not
      null, and is stored unchanged. */
  predicate Canonical(p: Prop, w: WireValue) {
    Fits(p, w) && Stored(p, w) == Some(w)
  }

  /** In a document with only fixed keys, a property is found under its
      key or not at all. */
  lemma FoundUnderKey(m: Wire, p: Prop)
    requires FixedKeys(m)
    ensures Found(m, p) == if Key(p) in m then Some(m[Key(p)]) else None
  {
    assert Lookup("user_name") == Some(BroadcasterName);
    assert Key(BroadcasterName) != "user_name";
    assert "user_name" !in m;
    assert FirstPresent(m, Names(p)) == if Key(p) in m then Some(Key(p)) else None;
  }

  /** A document with only fixed keys is unambiguous: Key is one-to-one. */
  lemma FixedKeysUnambiguous(m: Wire)
    requires FixedKeys(m)
    ensures Unambiguous(m)
  {
  }

  /** In such a document holding only canonical values, each property
      fits and holds the value under its key. */
  lemma IncomingCanon(m: Wire, p: Prop)
    requires FixedKeys(m)
    requires forall k :: k in m ==> Canonical(Lookup(k).value, m[k])
    ensures FitsFound(m, p)
    ensures Incoming(m, p) == if Key(p) in m then Some(m[Key(p)]) else None
  {
    FoundUnderKey(m, p);
    KeysBindBack();
    if Key(p) in m {
      assert Canonical(p, m[Key(p)]);
    }
  }

  /** Encoding f gives m when every property of f has the value m holds
      under its key. */
  lemma EncodeOf(f: Fields, m: Wire)
    requires FixedKeys(m)
    requires forall p :: WireOf(f, p) == if Key(p) in m then Some(m[Key(p)]) else None
    ensures Encode(f) == m
  {
    var e := Encode(f);
    forall k | k in m ensures k in e && e[k] == m[k] {
      assert WireOf(f, Lookup(k).value) == Some(m[k]);
    }
    forall k | k in e ensures k in m {
      assert WireOf(f, Lookup(k).value).Some?;
    }
  }

  /** The other direction of the round trip: a document that uses only
      fixed keys and holds only values encoding could have written decodes
      without error, and encoding the result gives the document back. */
  lemma EncodeDecode(m: Wire)
    requires FixedKeys(m)
    requires forall k :: k in m ==> Canonical(Lookup(k).value, m[k])
    ensures Unambiguous(m)
    ensures Decode(m).Ok?
    ensures Encode(Decode(m).value) == m
  {
    FixedKeysUnambiguous(m);
    forall p ensures FitsFound(m, p) && Incoming(m, p) == if Key(p) in m then Some(m[Key(p)]) else None {
      IncomingCanon(m, p);
    }
    EncodeOf(Decode(m).value, m);
  }

  /** Decoding ignores every key outside the table: two documents that
      agree on the known names decode alike. */
  lemma DecodeIgnoresUnknownKeys(m1: Wire, m2: Wire)
    requires Unambiguous(m1) && Unambiguous(m2)
    requires forall n :: Lookup(n).Some? ==> (n in m1 <==> n in m2) && (n in m1 ==> m1[n] == m2[n])
    ensures Decode(m1) == Decode(m2)
  {
    forall p ensures Found(m1, p) == Found(m2, p) {
      forall n | n in Names(p) ensures Lookup(n).Some? {
        NamesBindBack(p, n);
      }
      FirstPresentAgree(m1, m2, Names(p));
    }
    DecodeSameFound(m1, m2);
  }

  /** Adding a key the table does not know leaves the decoded Item as it was. */
  lemma UnknownKeyIgnored(m: Wire, k: string, v: WireValue)
    requires Unambiguous(m)
    requires Lookup(k).None?
    ensures Unambiguous(m[k := v])
    ensures Decode(m[k := v]) == Decode(m)
  {
    DecodeIgnoresUnknownKeys(m[k := v], m);
  }

  /** A property none of whose names is present decodes to null. */
  lemma AbsentKeyDecodesToNull(m: Wire, p: Prop)
    requires Unambiguous(m)
    requires forall n :: Lookup(n) == Some(p) ==> n !in m
    ensures Decode(m).Ok? ==> WireOf(Decode(m).value, p).None?
  {
    forall n | n in Names(p) ensures n !in m {
      NamesBindBack(p, n);
    }
  }

  /** A value given under an alias of p decodes exactly as the same value
      given under p's own key. */
  lemma AliasDecodesAsKey(m: Wire, p: Prop, alias: string, v: WireValue)
    requires Unambiguous(m)
    requires Lookup(alias) == Some(p)
    requires forall n :: Lookup(n) == Some(p) ==> n !in m
    ensures Unambiguous(m[alias := v]) && Unambiguous(m[Key(p) := v])
    ensures Decode(m[alias := v]) == Decode(m[Key(p) := v])
  {
    KeysBindBack();
    var m1, m2 := m[alias := v], m[Key(p) := v];
    forall q ensures Found(m1, q) == Found(m2, q) {
      if q == p {
        NamesBindBack(p, alias);
        NamesBindBack(p, FirstPresent(m1, Names(p)).value);
        NamesBindBack(p, FirstPresent(m2, Names(p)).value);
      } else {
        forall n | n in Names(q) ensures (n in m1 <==> n in m2) && (n in m1 ==> m1[n] == m2[n]) {
          NamesBindBack(q, n);
        }
        FirstPresentAgree(m1, m2, Names(q));
      }
    }
    DecodeSameFound(m1, m2);
  }

  /** The alias user_name is read as broadcaster_name. */
  lemma UserNameIsBroadcasterName(m: Wire, v: WireValue)
    requires Unambiguous(m)
    requires "broadcaster_name" !in m && "user_name" !in m
    ensures Unambiguous(m["user_name" := v]) && Unambiguous(m["broadcaster_name" := v])
    ensures Decode(m["user_name" := v]) == Decode(m["broadcaster_name" := v])
  {
    forall n | Lookup(n) == Some(BroadcasterName) ensures n !in m {
      NamesBindBack(BroadcasterName, n);
    }
    AliasDecodesAsKey(m, BroadcasterName, "user_name", v);
  }

  /** The three-key document of the worked example below is the encoding
      of an Item with only id, title and gameId set ... */
  lemma ThreeKeysEncoded()
    ensures Encode(Unset.(id := Some("1"), title := Some("Game A"), gameId := Some("99")))
      == map["id" := Text("1"), "title" := Text("Game A"), "game_id" := Text("99")]
  {
    var clean := map["id" := Text("1"), "title" := Text("Game A"), "game_id" := Text("99")];
    var g := Unset.(id := Some("1"), title := Some("Game A"), gameId := Some("99"));
    assert FixedKeys(clean) by {
      assert Lookup("id") == Some(Id) && Lookup("title") == Some(Title) && Lookup("game_id") == Some(GameId);
    }
    forall p ensures WireOf(g, p) == if Key(p) in clean then Some(clean[Key(p)]) else None {
      match p
      case Id =>
      case Title =>
      case ThumbnailUrl =>
      case BroadcasterName =>
      case Url =>
      case GameId =>
      case Type =>
    }
    EncodeOf(g, clean);
  }

  /** ... and that document decodes back to that Item. */
  lemma ThreeKeysDecoded()
    ensures var clean := map["id" := Text("1"), "title" := Text("Game A"), "game_id" := Text("99")];
      Unambiguous(clean)
      && Decode(clean) == Ok(Unset.(id := Some("1"), title := Some("Game A"), gameId := Some("99")))
  {
    ThreeKeysEncoded();
    RoundTrip(Unset.(id := Some("1"), title := Some("Game A"), gameId := Some("99")));
  }

  /** A worked document: an unknown key is dropped, the three named
      properties are set, every other property is null, and encoding the
      result writes exactly the three known keys. */
  lemma KnownKeysSurvive()
    ensures var clean := map["id" := Text("1"), "title" := Text("Game A"), "game_id" := Text("99")];
      var m := clean["extra_field" := Text("ignored")];
      Unambiguous(m)
      && Decode(m) == Ok(Unset.(id := Some("1"), title := Some("Game A"), gameId := Some("99")))
      && Encode(Decode(m).value) == clean
  {
    assert Lookup("extra_field").None?;
    var clean := map["id" := Text("1"), "title" := Text("Game A"), "game_id" := Text("99")];
    ThreeKeysDecoded();
    UnknownKeyIgnored(clean, "extra_field", Text("ignored"));
    ThreeKeysEncoded();
  }
}
