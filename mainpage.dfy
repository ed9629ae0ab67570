/**
 * `mainPage.js`: the browser-side post list. The page keeps `posts` in memory, mirrors
 * it into local storage under "posts" after every change, and is either adding posts
 * or editing the one `currentEditId` names. Rendering is not modelled; the values a
 * handler reads from the form and `Date.now()` are its parameters.
 */
module MainPage {
  import opened Wrappers

  datatype Post = Post(id: string, title: string, author: string, content: string)

  /** `posts.findIndex(post => post.id === id)`: the first match, or -1. */
  function FindIndex(posts: seq<Post>, id: string): (r: int)
    ensures -1 <= r < |posts|
    ensures r == -1 <==> forall j :: 0 <= j < |posts| ==> posts[j].id != id
    ensures r >= 0 ==> posts[r].id == id && forall j :: 0 <= j < r ==> posts[j].id != id
  {
    if |posts| == 0 then -1
    else if posts[0].id == id then 0
    else
      var r := FindIndex(posts[1..], id);
      if r == -1 then -1 else r + 1
  }

  /** `posts.find(post => post.id === id)`: the first post with that id, if any. */
  function Find(posts: seq<Post>, id: string): (r: Option<Post>)
    ensures r.None? <==> forall p :: p in posts ==> p.id != id
    ensures r.Some? ==> r.value in posts && r.value.id == id
    ensures r.Some? ==>
      exists i :: 0 <= i < |posts| && posts[i] == r.value && forall j :: 0 <= j < i ==> posts[j].id != id
  {
    var i := FindIndex(posts, id);
    if i == -1 then None else Some(posts[i])
  }

  /** `posts.filter(post => post.id !== id)`. */
  function WithoutId(posts: seq<Post>, id: string): (r: seq<Post>)
    ensures |r| <= |posts|
    ensures forall p :: p in r <==> p in posts && p.id != id
  {
    if |posts| == 0 then []
    else if posts[0].id == id then WithoutId(posts[1..], id)
    else [posts[0]] + WithoutId(posts[1..], id)
  }

  /** Filtering distributes over concatenation, so the kept posts stay in their order. */
  lemma {:induction false} WithoutIdAppend(a: seq<Post>, b: seq<Post>, id: string)
    ensures WithoutId(a + b, id) == WithoutId(a, id) + WithoutId(b, id)
  {
    if |a| > 0 {
      assert (a + b)[0] == a[0];
      assert (a + b)[1..] == a[1..] + b;
      WithoutIdAppend(a[1..], b, id);
      var rest := WithoutId(a[1..], id);
      if a[0].id != id {
        assert [a[0]] + (rest + WithoutId(b, id)) == ([a[0]] + rest) + WithoutId(b, id);
      }
    } else {
      assert a + b == b;
    }
  }

  /** A list with no post of that id is left exactly as it was. */
  lemma {:induction false} WithoutAbsentId(posts: seq<Post>, id: string)
    requires forall p :: p in posts ==> p.id != id
    ensures WithoutId(posts, id) == posts
  {
    if |posts| > 0 {
      WithoutAbsentId(posts[1..], id);
    }
  }

  /** The post at `i` with the form's title, author and content, its id kept. */
  function Edited(posts: seq<Post>, i: nat, title: string, author: string, content: string): (r: seq<Post>)
    requires i < |posts|
    ensures |r| == |posts| && r[i].id == posts[i].id
    ensures (r[i].title, r[i].author, r[i].content) == (title, author, content)
    ensures forall j :: 0 <= j < |posts| && j != i ==> r[j] == posts[j]
  {
    posts[i := posts[i].(title := title, author := author, content := content)]
  }

  class PostBoard {
    var posts: seq<Post>
    /** `null`, or the id of the post being edited. */
    var currentEditId: Option<string>
    /** What local storage holds under "posts": nothing until the first save. */
    var saved: Option<seq<Post>>

    /** Local storage always mirrors the list once anything was saved. */
    ghost predicate Persisted()
      reads this
    {
      saved == Some(posts) || (saved == None && posts == [])
    }

    /** JavaScript's `if (currentEditId)`: set and not the empty string. */
    predicate Editing()
      reads this
    {
      currentEditId.Some? && currentEditId.value != ""
    }

    /** Page load: the stored list, or `[]` when nothing is stored; not editing. */
    constructor (stored: Option<seq<Post>>)
      ensures posts == stored.GetOr([]) && saved == stored && currentEditId == None
      ensures Persisted()
    {
      posts := stored.GetOr([]);
      saved := stored;
      currentEditId := None;
    }

    /**
     * The form's submit handler. Editing: the post `currentEditId` names gets the
     * form's fields and edit mode ends; if that post was deleted meanwhile, the write
     * lands on index -1, which no array operation sees, so the list is unchanged.
     * Adding: a new post with id `now` is appended.
     */
    method Submit(title: string, author: string, content: string, now: string)
      modifies this
      ensures saved == Some(posts) && Persisted()
      ensures old(Editing()) ==>
        && currentEditId == None
        && |posts| == |old(posts)|
        && var i := FindIndex(old(posts), old(currentEditId).value);
           posts == if i == -1 then old(posts) else Edited(old(posts), i, title, author, content)
      ensures !old(Editing()) ==>
        && posts == old(posts) + [Post(now, title, author, content)]
        && currentEditId == old(currentEditId)
    {
      if Editing() {
        var i := FindIndex(posts, currentEditId.value);
        if i != -1 {
          posts := Edited(posts, i, title, author, content);
        }
        currentEditId := None;
      } else {
        posts := posts + [Post(now, title, author, content)];
      }
      saved := Some(posts);
    }

    /** A delete button: every post with that id goes, the rest keep their order. */
    method ClickDelete(id: string)
      modifies this
      ensures posts == WithoutId(old(posts), id) && saved == Some(posts)
      ensures currentEditId == old(currentEditId)
    {
      posts := WithoutId(posts, id);
      saved := Some(posts);
    }

    /**
     * An edit button: returns the post whose fields fill the form and enters edit mode;
     * for an id no post has, reading its title throws first and nothing changes.
     */
    method ClickEdit(id: string) returns (prefill: Option<Post>)
      modifies this
      ensures prefill == Find(posts, id)
      ensures posts == old(posts) && saved == old(saved)
      ensures currentEditId == if prefill.Some? then Some(id) else old(currentEditId)
    {
      prefill := Find(posts, id);
      if prefill.Some? {
        currentEditId := Some(id);
      }
    }

    /** The cancel button: leaves edit mode. */
    method CancelEdit()
      modifies this
      ensures currentEditId == None && posts == old(posts) && saved == old(saved)
    {
      currentEditId := None;
    }

    method DeleteAll()
      modifies this
      ensures posts == [] && saved == Some([]) && currentEditId == old(currentEditId)
    {
      posts := [];
      saved := Some(posts);
    }

    /** View by id: the first post with that id, or `None` where the page alerts "Post not found". */
    method ViewById(id: string) returns (found: Option<Post>)
      ensures found.None? <==> forall p :: p in posts ==> p.id != id
      ensures found.Some? ==> found.value == posts[FindIndex(posts, id)]
    {
      found := Find(posts, id);
    }
  }
}
