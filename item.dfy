/** The normalized Item entity of Jupiter and its Builder.

    A Java field that may hold null is an Option here (None is null). The
    three final fields of Item (id, title, thumbnailUrl) are `const` fields,
    which Dafny lets only the constructor set; the other four are `var`
    fields. The only way to obtain an Item is Builder.Build, which calls the
    Item constructor with the builder itself. */
module ItemEntity {
  import opened Wrappers

  /** The enum ItemType. Its constants are not part of this model, so it is
      an opaque type whose values can only be compared. */
  type ItemType(==)

  /** The seven properties an Item or a Builder holds, as one value. */
  datatype Fields = Fields(
    id: Option<string>,
    title: Option<string>,
    thumbnailUrl: Option<string>,
    broadcasterName: Option<string>,
    url: Option<string>,
    gameId: Option<string>,
    itemType: Option<ItemType>)

  /** Every property null: the state of a fresh Builder. */
  const Unset: Fields := Fields(None, None, None, None, None, None, None)

  class Builder {
    var id: Option<string>
    var title: Option<string>
    var url: Option<string>
    var thumbnailUrl: Option<string>
    var broadcasterName: Option<string>
    var gameId: Option<string>
    var itemType: Option<ItemType>

    /** The values this builder has accumulated so far. */
    function State(): Fields
      reads this
    {
      Fields(id, title, thumbnailUrl, broadcasterName, url, gameId, itemType)
    }

    /** Java's implicit constructor: every field starts as null. */
    constructor ()
      ensures State() == Unset
    {
      id, title, url, thumbnailUrl := None, None, None, None;
      broadcasterName, gameId, itemType := None, None, None;
    }

    method Id(id: Option<string>) returns (self: Builder)
      modifies this
      ensures self == this
      ensures State() == old(State()).(id := id)
    {
      this.id := id;
      self := this;
    }

    method Title(title: Option<string>) returns (self: Builder)
      modifies this
      ensures self == this
      ensures State() == old(State()).(title := title)
    {
      this.title := title;
      self := this;
    }

    method Url(url: Option<string>) returns (self: Builder)
      modifies this
      ensures self == this
      ensures State() == old(State()).(url := url)
    {
      this.url := url;
      self := this;
    }

    method ThumbnailUrl(thumbnailUrl: Option<string>) returns (self: Builder)
      modifies this
      ensures self == this
      ensures State() == old(State()).(thumbnailUrl := thumbnailUrl)
    {
      this.thumbnailUrl := thumbnailUrl;
      self := this;
    }

    method BroadcasterName(broadcasterName: Option<string>) returns (self: Builder)
      modifies this
      ensures self == this
      ensures State() == old(State()).(broadcasterName := broadcasterName)
    {
      this.broadcasterName := broadcasterName;
      self := this;
    }

    method GameId(gameId: Option<string>) returns (self: Builder)
      modifies this
      ensures self == this
      ensures State() == old(State()).(gameId := gameId)
    {
      this.gameId := gameId;
      self := this;
    }

    method Type(itemType: Option<ItemType>) returns (self: Builder)
      modifies this
      ensures self == this
      ensures State() == old(State()).(itemType := itemType)
    {
      this.itemType := itemType;
      self := this;
    }

    /** A new Item holding exactly the values accumulated so far; the
        builder itself is left as it was. */
    method Build() returns (item: Item)
      ensures fresh(item)
      ensures item.State() == State()
    {
      item := new Item(this);
    }
  }

  class Item {
    const id: Option<string>
    const title: Option<string>
    const thumbnailUrl: Option<string>
    var broadcasterName: Option<string>
    var url: Option<string>
    var gameId: Option<string>
    var itemType: Option<ItemType>

    /** The current values of the seven properties. */
    function State(): Fields
      reads this
    {
      Fields(id, title, thumbnailUrl, broadcasterName, url, gameId, itemType)
    }

    /** Private in the source: called only from Builder.Build. Copies every
        field of the builder. */
    constructor (builder: Builder)
      ensures State() == builder.State()
    {
      id := builder.id;
      title := builder.title;
      url := builder.url;
      thumbnailUrl := builder.thumbnailUrl;
      broadcasterName := builder.broadcasterName;
      gameId := builder.gameId;
      itemType := builder.itemType;
    }

    method SetUrl(url: Option<string>) returns (self: Item)
      modifies this
      ensures self == this
      ensures State() == old(State()).(url := url)
    {
      this.url := url;
      self := this;
    }

    method SetGameId(gameId: Option<string>) returns (self: Item)
      modifies this
      ensures self == this
      ensures State() == old(State()).(gameId := gameId)
    {
      this.gameId := gameId;
      self := this;
    }

    method SetType(itemType: Option<ItemType>) returns (self: Item)
      modifies this
      ensures self == this
      ensures State() == old(State()).(itemType := itemType)
    {
      this.itemType := itemType;
      self := this;
    }
  }

  /** Chained builder calls: the last write to a property wins, and a write
      to one property leaves the others as they were. */
  method LastWriteWins(first: Option<string>, second: Option<string>, title: Option<string>)
    returns (item: Item)
    ensures item.id == second
    ensures item.title == title
    ensures item.State() == Unset.(id := second, title := title)
  {
    var b := new Builder();
    b := b.Id(first);
    b := b.Title(title);
    b := b.Id(second);
    item := b.Build();
  }
}
