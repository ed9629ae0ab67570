/**
 * Package `model`: the stored blog post and its JSON form. The `Author` field, a
 * `user.User` in the Go struct, is carried as the author's username only; the source
 * copies and serialises the whole struct, whose other fields this model drops.
 */
module Model {
  import opened Wrappers
  import opened Uuids

  datatype Item = Item(id: Uuid, blogname: string, author: string, content: string,
                       identifier: string, identifierId: Uuid)

  /** A JSON value: a string, or an object as its members in order. */
  datatype Json = JString(s: string) | JObject(members: seq<(string, Json)>)

  /** `json.Marshal` of an item: one member per json-tagged field, named by its tag. */
  function Marshal(item: Item): (j: Json)
    ensures j.JObject? && |j.members| == 6
  {
    JObject([("id", JString(item.id)), ("blogname", JString(item.blogname)),
             ("author", JString(item.author)), ("content", JString(item.content)),
             ("identifier", JString(item.identifier)),
             ("identifier_id", JString(item.identifierId))])
  }

  /** The string held by the first member called `name`, as a JSON decoder reads a field. */
  function Field(members: seq<(string, Json)>, name: string): Option<string>
  {
    if |members| == 0 then None
    else if members[0].0 == name then
      (if members[0].1.JString? then Some(members[0].1.s) else None)
    else Field(members[1..], name)
  }

  /** Reads back an item from an object carrying the members `Marshal` writes. */
  function Unmarshal(j: Json): (r: Option<Item>)
  {
    if !j.JObject? then None
    else
      var id, b, a := Field(j.members, "id"), Field(j.members, "blogname"), Field(j.members, "author");
      var c, i, iid := Field(j.members, "content"), Field(j.members, "identifier"),
                       Field(j.members, "identifier_id");
      if id.Some? && b.Some? && a.Some? && c.Some? && i.Some? && iid.Some?
         && IsCanonical(id.value) && IsCanonical(iid.value)
      then Some(Item(id.value, b.value, a.value, c.value, i.value, iid.value))
      else None
  }

  /** A member found at `k`, with no earlier member of that name, is the one a decoder reads. */
  lemma {:induction false} FieldAt(members: seq<(string, Json)>, k: nat, name: string, v: string)
    requires k < |members| && members[k] == (name, JString(v))
    requires forall i :: 0 <= i < k ==> members[i].0 != name
    ensures Field(members, name) == Some(v)
  {
    if k > 0 {
      FieldAt(members[1..], k - 1, name, v);
    }
  }

  /** Every field `Marshal` writes is found again under its own name. */
  lemma MarshalFields(item: Item)
    ensures var m := Marshal(item).members;
      Field(m, "id") == Some(item.id) && Field(m, "blogname") == Some(item.blogname)
      && Field(m, "author") == Some(item.author) && Field(m, "content") == Some(item.content)
      && Field(m, "identifier") == Some(item.identifier)
      && Field(m, "identifier_id") == Some(item.identifierId)
  {
    var m := Marshal(item).members;
    assert Field(m, "id") == Some(item.id) by {
      FieldAt(m, 0, "id", item.id);
    }
    assert Field(m, "blogname") == Some(item.blogname) by {
      assert m[0].0 == "id";
      FieldAt(m, 1, "blogname", item.blogname);
    }
    assert Field(m, "author") == Some(item.author) by {
      assert m[0].0 == "id" && m[1].0 == "blogname";
      FieldAt(m, 2, "author", item.author);
    }
    assert Field(m, "content") == Some(item.content) by {
      assert m[0].0 == "id" && m[1].0 == "blogname" && m[2].0 == "author";
      FieldAt(m, 3, "content", item.content);
    }
    assert Field(m, "identifier") == Some(item.identifier) by {
      assert m[0].0 == "id" && m[1].0 == "blogname" && m[2].0 == "author";
      assert m[3].0 == "content";
      FieldAt(m, 4, "identifier", item.identifier);
    }
    assert Field(m, "identifier_id") == Some(item.identifierId) by {
      assert m[0].0 == "id" && m[1].0 == "blogname" && m[2].0 == "author";
      assert m[3].0 == "content" && m[4].0 == "identifier";
      FieldAt(m, 5, "identifier_id", item.identifierId);
    }
  }

  /** Decoding what was encoded gives the item back, so serialisation loses nothing. */
  lemma MarshalRoundTrip(item: Item)
    ensures Unmarshal(Marshal(item)) == Some(item)
  {
    MarshalFields(item);
  }

  /** Two items with the same JSON are the same item. */
  lemma MarshalInjective(a: Item, b: Item)
    ensures Marshal(a) == Marshal(b) ==> a == b
  {
    MarshalRoundTrip(a);
    MarshalRoundTrip(b);
  }
}
