/**
 * The blog content index: listing the published posts of the content
 * directory, newest first, and resolving one post by its slug.
 *
 * The directory is an explicit value: either missing, or the sequence of
 * its files in listing order, each already split by the front-matter
 * parser into its metadata block and its body.
 */
module Blog {

  import opened Wrappers

  /** A scalar front-matter value as the YAML parser may hand it back. */
  datatype Scalar = Bool(b: bool) | Str(s: string) | Num(n: real)

  /** JavaScript truthiness of a parsed scalar. */
  predicate Truthy(v: Scalar)
  {
    match v
    case Bool(b) => b
    case Str(s) => s != ""
    case Num(n) => n != 0.0
  }

  /** Truthiness of a front-matter key that may be absent (`undefined` is falsy). */
  predicate RawTruthy(v: Option<Scalar>)
  {
    v.Some? && Truthy(v.value)
  }

  /** The parsed metadata block; `None` stands for an absent or null key. */
  datatype FrontMatter = FrontMatter(
    title: Option<string>,
    date: Option<string>,
    description: Option<string>,
    tags: Option<seq<string>>,
    coverImage: Option<string>,
    published: Option<Scalar>)

  datatype FileEntry = FileEntry(name: string, data: FrontMatter, content: string)

  /** The content directory: absent, or its files in listing order. */
  datatype Store = Missing | Dir(files: seq<FileEntry>)

  datatype PostMeta = PostMeta(
    slug: string,
    title: string,
    date: string,
    description: string,
    tags: seq<string>,
    coverImage: Option<string>,
    published: Scalar)

  datatype Post = Post(meta: PostMeta, content: string)

  /** The outcome of resolving a slug; `NotFound` is the framework's 404 signal. */
  datatype Lookup = NotFound | Found(post: Post)

  const Extension: string := ".mdx"

  /** A directory never lists the same file name twice. */
  ghost predicate UniqueNames(files: seq<FileEntry>)
  {
    forall i, j :: 0 <= i < j < |files| ==> files[i].name != files[j].name
  }

  predicate IsMdx(name: string)
  {
    |name| >= |Extension| && name[|name| - |Extension|..] == Extension
  }

  /** The file name with its trailing `.mdx` removed. */
  function Slug(name: string): (slug: string)
    requires IsMdx(name)
    ensures slug + Extension == name
  {
    name[..|name| - |Extension|]
  }

  /** Stripping the extension undoes appending it, so every slug has exactly one file name. */
  lemma SlugOfFileName(slug: string)
    ensures IsMdx(slug + Extension) && Slug(slug + Extension) == slug
  {
    var name := slug + Extension;
    assert name[|name| - |Extension|..] == Extension;
    assert name[..|name| - |Extension|] == slug;
  }

  /** The `??` operator: the value when present, the default otherwise. */
  function OrElse<T>(v: Option<T>, default: T): T
  {
    match v
    case Some(x) => x
    case None => default
  }

  /** Metadata of one post, with every absent key replaced by its default. */
  function ToMeta(slug: string, data: FrontMatter): PostMeta
  {
    PostMeta(
      slug,
      OrElse(data.title, ""),
      OrElse(data.date, ""),
      OrElse(data.description, ""),
      OrElse(data.tags, []),
      data.coverImage,
      OrElse(data.published, Bool(false)))
  }

  /** A file without any metadata gets the empty defaults and is never visible. */
  lemma DefaultsForEmptyFrontMatter(slug: string)
    ensures var m := ToMeta(slug, FrontMatter(None, None, None, None, None, None));
            m == PostMeta(slug, "", "", "", [], None, Bool(false)) && !Truthy(m.published)
  {
  }

  /**
   * The listing's visibility test (on the defaulted flag) agrees with the
   * resolver's test (on the raw flag), whatever the flag holds.
   */
  lemma VisibilityAgrees(slug: string, data: FrontMatter)
    ensures Truthy(ToMeta(slug, data).published) <==> RawTruthy(data.published)
  {
  }

  // ---------------------------------------------------------------------
  // Listing

  /** The `.mdx` files of a listing, in listing order, turned into metadata. */
  function MdxMetas(files: seq<FileEntry>): seq<PostMeta>
  {
    if files == [] then []
    else
      (if IsMdx(files[0].name) then [ToMeta(Slug(files[0].name), files[0].data)] else [])
      + MdxMetas(files[1..])
  }

  /** The entries whose `published` flag is truthy, in order. */
  function PublishedOnly(ms: seq<PostMeta>): seq<PostMeta>
  {
    if ms == [] then []
    else (if Truthy(ms[0].published) then [ms[0]] else []) + PublishedOnly(ms[1..])
  }

  /** JavaScript's `a < b` on strings: lexicographic, a proper prefix being smaller. */
  predicate LexLess(a: string, b: string)
  {
    if a == [] then b != []
    else if b == [] then false
    else if a[0] != b[0] then a[0] < b[0]
    else LexLess(a[1..], b[1..])
  }

  /** Every adjacent pair is in descending date order (`a.date >= b.date`). */
  ghost predicate DescendingByDate(s: seq<PostMeta>)
  {
    forall i :: 0 < i < |s| ==> !LexLess(s[i - 1].date, s[i].date)
  }

  /**
   * One step of the sort with comparator `a.date < b.date ? 1 : -1`:
   * `m` passes every entry whose date is greater than its own.
   */
  function InsertByDate(m: PostMeta, sorted: seq<PostMeta>): seq<PostMeta>
  {
    if sorted == [] then [m]
    else if LexLess(m.date, sorted[0].date) then [sorted[0]] + InsertByDate(m, sorted[1..])
    else [m] + sorted
  }

  /** Sorting by descending date, taking the entries in their original order. */
  function SortByDateDesc(ms: seq<PostMeta>): seq<PostMeta>
  {
    if ms == [] then [] else InsertByDate(ms[|ms| - 1], SortByDateDesc(ms[..|ms| - 1]))
  }

  /** `getAllPosts`: a missing directory yields no posts. */
  function GetAllPosts(store: Store): (posts: seq<PostMeta>)
    ensures store.Missing? ==> posts == []
  {
    match store
    case Missing => []
    case Dir(files) => SortByDateDesc(PublishedOnly(MdxMetas(files)))
  }

  // ---------------------------------------------------------------------
  // Resolving one post

  /** The first file of the listing with the given name. */
  function Find(files: seq<FileEntry>, name: string): (r: Option<FileEntry>)
    ensures r.Some? ==> r.value in files && r.value.name == name
    ensures r.None? <==> forall i :: 0 <= i < |files| ==> files[i].name != name
  {
    if files == [] then None
    else if files[0].name == name then Some(files[0])
    else Find(files[1..], name)
  }

  /** `getPostBySlug`: a missing file or a falsy `published` flag are both NotFound. */
  function GetPostBySlug(store: Store, slug: string): (r: Lookup)
    ensures store.Missing? ==> r == NotFound
    ensures r.Found? ==> r.post.meta.slug == slug && Truthy(r.post.meta.published)
  {
    match store
    case Missing => NotFound
    case Dir(files) =>
      match Find(files, slug + Extension)
      case None => NotFound
      case Some(f) =>
        if !RawTruthy(f.data.published) then NotFound
        else Found(Post(ToMeta(slug, f.data), f.content))
  }

  // ---------------------------------------------------------------------
  // Properties of the string order

  lemma {:induction false} LexLessIrreflexive(a: string)
    ensures !LexLess(a, a)
  {
    if a != [] {
      LexLessIrreflexive(a[1..]);
    }
  }

  lemma {:induction false} LexLessAsymmetric(a: string, b: string)
    ensures LexLess(a, b) ==> !LexLess(b, a)
  {
    if a != [] && b != [] && a[0] == b[0] {
      LexLessAsymmetric(a[1..], b[1..]);
    }
  }

  lemma {:induction false} LexLessTotal(a: string, b: string)
    ensures a == b || LexLess(a, b) || LexLess(b, a)
  {
    if a != [] && b != [] && a[0] == b[0] {
      LexLessTotal(a[1..], b[1..]);
      if a[1..] == b[1..] {
        assert a == [a[0]] + a[1..] && b == [b[0]] + b[1..];
      }
    }
  }

  lemma {:induction false} LexLessTransitive(a: string, b: string, c: string)
    ensures LexLess(a, b) && LexLess(b, c) ==> LexLess(a, c)
  {
    if a != [] && b != [] && c != [] && a[0] == b[0] && b[0] == c[0] {
      LexLessTransitive(a[1..], b[1..], c[1..]);
    }
  }

  /** "Not less than" (the `>=` of dates) is transitive. */
  lemma NotLessTransitive(a: string, b: string, c: string)
    requires !LexLess(a, b) && !LexLess(b, c)
    ensures !LexLess(a, c)
  {
    LexLessTotal(a, b);
    LexLessTotal(b, c);
    LexLessTransitive(c, b, a);
    LexLessAsymmetric(a, c);
  }

  // ---------------------------------------------------------------------
  // The sort is a permutation into descending order

  /** Inserting adds exactly the one entry: the result is a permutation of `sorted` plus `m`. */
  lemma {:induction false} InsertByDatePermutes(m: PostMeta, sorted: seq<PostMeta>)
    ensures multiset(InsertByDate(m, sorted)) == multiset(sorted) + multiset{m}
    ensures |InsertByDate(m, sorted)| == |sorted| + 1
  {
    if sorted != [] && LexLess(m.date, sorted[0].date) {
      InsertByDatePermutes(m, sorted[1..]);
      assert sorted == [sorted[0]] + sorted[1..];
      assert multiset(sorted) == multiset{sorted[0]} + multiset(sorted[1..]);
    }
  }

  /** Inserting into a descending list keeps it descending; the head is `m` or the old head. */
  lemma {:induction false} InsertByDateSorted(m: PostMeta, sorted: seq<PostMeta>)
    requires DescendingByDate(sorted)
    ensures DescendingByDate(InsertByDate(m, sorted))
    ensures InsertByDate(m, sorted)[0] == m || (sorted != [] && InsertByDate(m, sorted)[0] == sorted[0])
  {
    if sorted != [] && LexLess(m.date, sorted[0].date) {
      var rest := InsertByDate(m, sorted[1..]);
      assert DescendingByDate(sorted[1..]) by {
        forall i | 0 < i < |sorted[1..]|
          ensures !LexLess(sorted[1..][i - 1].date, sorted[1..][i].date)
        {
          assert sorted[1..][i - 1] == sorted[i] && sorted[1..][i] == sorted[i + 1];
        }
      }
      InsertByDateSorted(m, sorted[1..]);
      InsertByDatePermutes(m, sorted[1..]);
      LexLessAsymmetric(m.date, sorted[0].date);
      var r := [sorted[0]] + rest;
      assert r == InsertByDate(m, sorted);
      forall i | 0 < i < |r|
        ensures !LexLess(r[i - 1].date, r[i].date)
      {
        if i > 1 {
          assert r[i - 1] == rest[i - 2] && r[i] == rest[i - 1];
        } else if sorted[1..] != [] && rest[0] == sorted[1..][0] {
          assert sorted[1..][0] == sorted[1];
        }
      }
    }
  }

  /** The sort yields a newest-first permutation of its input. */
  lemma SortByDateDescCorrect(ms: seq<PostMeta>)
    ensures DescendingByDate(SortByDateDesc(ms))
    ensures multiset(SortByDateDesc(ms)) == multiset(ms)
  {
    SortByDateDescSorted(ms);
    SortByDateDescPermutes(ms);
  }

  lemma {:induction false} SortByDateDescSorted(ms: seq<PostMeta>)
    ensures DescendingByDate(SortByDateDesc(ms))
  {
    if ms != [] {
      var init, last := ms[..|ms| - 1], ms[|ms| - 1];
      SortByDateDescSorted(init);
      InsertByDateSorted(last, SortByDateDesc(init));
    }
  }

  lemma {:induction false} SortByDateDescPermutes(ms: seq<PostMeta>)
    ensures multiset(SortByDateDesc(ms)) == multiset(ms)
  {
    if ms != [] {
      var init, last := ms[..|ms| - 1], ms[|ms| - 1];
      var sorted := SortByDateDesc(init);
      assert SortByDateDesc(ms) == InsertByDate(last, sorted);
      SortByDateDescPermutes(init);
      InsertByDatePermutes(last, sorted);
      assert ms == init + [last];
      assert multiset(ms) == multiset(init) + multiset{last};
    }
  }

  /** Adjacent descending order gives descending order between any two positions. */
  lemma {:induction false} DescendingPairwise(s: seq<PostMeta>, i: nat, j: nat)
    requires DescendingByDate(s)
    requires i <= j < |s|
    ensures !LexLess(s[i].date, s[j].date)
    decreases j - i
  {
    if i == j {
      LexLessIrreflexive(s[i].date);
    } else {
      DescendingPairwise(s, i + 1, j);
      NotLessTransitive(s[i].date, s[i + 1].date, s[j].date);
    }
  }

  // ---------------------------------------------------------------------
  // Which entries are listed

  lemma {:induction false} PublishedOnlyMembers(ms: seq<PostMeta>)
    ensures forall m :: m in PublishedOnly(ms) <==> m in ms && Truthy(m.published)
  {
    if ms != [] {
      PublishedOnlyMembers(ms[1..]);
      assert ms == [ms[0]] + ms[1..];
    }
  }

  lemma {:induction false} MdxMetasMembers(files: seq<FileEntry>, m: PostMeta)
    ensures m in MdxMetas(files) <==>
      exists i :: 0 <= i < |files| && IsMdx(files[i].name) && m == ToMeta(Slug(files[i].name), files[i].data)
  {
    if files != [] {
      MdxMetasMembers(files[1..], m);
      if m in MdxMetas(files[1..]) {
        var i :| 0 <= i < |files[1..]| && IsMdx(files[1..][i].name)
                 && m == ToMeta(Slug(files[1..][i].name), files[1..][i].data);
        assert files[i + 1] == files[1..][i];
      }
      if exists i :: 0 <= i < |files| && IsMdx(files[i].name) && m == ToMeta(Slug(files[i].name), files[i].data) {
        var i :| 0 <= i < |files| && IsMdx(files[i].name) && m == ToMeta(Slug(files[i].name), files[i].data);
        if i > 0 {
          assert files[1..][i - 1] == files[i];
        }
      }
    }
  }

  /** Every listed post is published, and the list is newest first. */
  lemma GetAllPostsPublishedAndOrdered(store: Store)
    ensures forall m :: m in GetAllPosts(store) ==> Truthy(m.published)
    ensures DescendingByDate(GetAllPosts(store))
    ensures forall i, j :: 0 <= i <= j < |GetAllPosts(store)| ==>
      !LexLess(GetAllPosts(store)[i].date, GetAllPosts(store)[j].date)
  {
    if store.Dir? {
      var ms := PublishedOnly(MdxMetas(store.files));
      SortByDateDescCorrect(ms);
      PublishedOnlyMembers(MdxMetas(store.files));
      var posts := GetAllPosts(store);
      forall m | m in posts
        ensures Truthy(m.published)
      {
        assert m in multiset(posts);
      }
      forall i, j | 0 <= i <= j < |posts|
        ensures !LexLess(posts[i].date, posts[j].date)
      {
        DescendingPairwise(posts, i, j);
      }
    }
  }

  /** The listing is a permutation of the published `.mdx` entries: nothing added, nothing lost. */
  lemma GetAllPostsPermutation(files: seq<FileEntry>)
    ensures multiset(GetAllPosts(Dir(files))) == multiset(PublishedOnly(MdxMetas(files)))
  {
    SortByDateDescCorrect(PublishedOnly(MdxMetas(files)));
  }

  /** A post is listed exactly when it comes from a published `.mdx` file of the directory. */
  lemma GetAllPostsMembers(files: seq<FileEntry>, m: PostMeta)
    ensures m in GetAllPosts(Dir(files)) <==>
      Truthy(m.published) &&
      exists i :: 0 <= i < |files| && IsMdx(files[i].name) && m == ToMeta(Slug(files[i].name), files[i].data)
  {
    var ms := PublishedOnly(MdxMetas(files));
    SortByDateDescCorrect(ms);
    assert m in GetAllPosts(Dir(files)) <==> m in multiset(ms);
    PublishedOnlyMembers(MdxMetas(files));
    MdxMetasMembers(files, m);
  }

  // ---------------------------------------------------------------------
  // Resolving agrees with listing

  /** The resolver's three outcomes: no such file, unpublished file, or the post with its body. */
  lemma GetPostBySlugOutcomes(files: seq<FileEntry>, slug: string)
    requires UniqueNames(files)
    ensures (forall i :: 0 <= i < |files| ==> files[i].name != slug + Extension) ==>
      GetPostBySlug(Dir(files), slug) == NotFound
    ensures forall i :: 0 <= i < |files| && files[i].name == slug + Extension ==>
      GetPostBySlug(Dir(files), slug) ==
        if RawTruthy(files[i].data.published) then Found(Post(ToMeta(slug, files[i].data), files[i].content))
        else NotFound
  {
    forall i | 0 <= i < |files| && files[i].name == slug + Extension
      ensures Find(files, slug + Extension) == Some(files[i])
    {
      FindUnique(files, slug + Extension, i);
    }
  }

  lemma {:induction false} FindUnique(files: seq<FileEntry>, name: string, i: nat)
    requires UniqueNames(files)
    requires i < |files| && files[i].name == name
    ensures Find(files, name) == Some(files[i])
  {
    if i > 0 {
      assert files[0].name != name;
      FindUnique(files[1..], name, i - 1);
    }
  }

  /**
   * A slug is listed exactly when resolving it succeeds, and the resolved
   * post carries the listed metadata.
   */
  lemma ListedIffResolvable(store: Store, slug: string)
    requires store.Dir? ==> UniqueNames(store.files)
    ensures (exists m :: m in GetAllPosts(store) && m.slug == slug) <==> GetPostBySlug(store, slug).Found?
    ensures GetPostBySlug(store, slug).Found? ==> GetPostBySlug(store, slug).post.meta in GetAllPosts(store)
  {
    if store.Dir? {
      var files := store.files;
      var name := slug + Extension;
      SlugOfFileName(slug);
      GetPostBySlugOutcomes(files, slug);
      if m :| m in GetAllPosts(store) && m.slug == slug {
        GetAllPostsMembers(files, m);
        var i :| 0 <= i < |files| && IsMdx(files[i].name) && m == ToMeta(Slug(files[i].name), files[i].data);
        assert Slug(files[i].name) + Extension == files[i].name;
        assert files[i].name == name;
        VisibilityAgrees(slug, files[i].data);
      }
      if GetPostBySlug(store, slug).Found? {
        var f := Find(files, name).value;
        var i :| 0 <= i < |files| && files[i] == f;
        var m := ToMeta(slug, f.data);
        VisibilityAgrees(slug, f.data);
        GetAllPostsMembers(files, m);
        assert m in GetAllPosts(store);
      }
    }
  }

  /** Equal leading characters do not decide the order. */
  lemma {:induction false} LexLessCommonPrefix(p: string, a: string, b: string)
    ensures LexLess(p + a, p + b) <==> LexLess(a, b)
  {
    if p == [] {
      assert p + a == a && p + b == b;
    } else {
      assert (p + a)[0] == p[0] == (p + b)[0];
      assert (p + a)[1..] == p[1..] + a && (p + b)[1..] == p[1..] + b;
      LexLessCommonPrefix(p[1..], a, b);
    }
  }

  const ExampleA := FileEntry("a.mdx", FrontMatter(None, Some("2024-01-01"), None, None, None, Some(Bool(true))), "A")
  const ExampleB := FileEntry("b.mdx", FrontMatter(None, Some("2024-06-01"), None, None, None, Some(Bool(true))), "B")
  const ExampleC := FileEntry("c.mdx", FrontMatter(None, Some("2024-03-01"), None, None, None, Some(Bool(false))), "C")

  lemma ExampleMdxMetas()
    ensures MdxMetas([ExampleA, ExampleB, ExampleC])
         == [ToMeta("a", ExampleA.data), ToMeta("b", ExampleB.data), ToMeta("c", ExampleC.data)]
  {
    var a, b, c := ExampleA, ExampleB, ExampleC;
    SlugOfFileName("a");
    SlugOfFileName("b");
    SlugOfFileName("c");
    assert "a" + Extension == a.name && "b" + Extension == b.name && "c" + Extension == c.name;
    assert [c][1..] == [];
    assert MdxMetas([c]) == [ToMeta("c", c.data)];
    assert [b, c][1..] == [c];
    assert MdxMetas([b, c]) == [ToMeta("b", b.data)] + [ToMeta("c", c.data)];
    assert [a, b, c][1..] == [b, c];
  }

  lemma ExamplePublishedOnly(ma: PostMeta, mb: PostMeta, mc: PostMeta)
    requires Truthy(ma.published) && Truthy(mb.published) && !Truthy(mc.published)
    ensures PublishedOnly([ma, mb, mc]) == [ma, mb]
  {
    assert [mc][1..] == [];
    assert PublishedOnly([mc]) == [];
    assert [mb, mc][1..] == [mc];
    assert PublishedOnly([mb, mc]) == [mb];
    assert [ma, mb, mc][1..] == [mb, mc];
    assert PublishedOnly([ma, mb, mc]) == [ma] + [mb];
  }

  lemma ExampleSort(ma: PostMeta, mb: PostMeta)
    requires LexLess(ma.date, mb.date)
    ensures SortByDateDesc([ma, mb]) == [mb, ma]
  {
    assert [ma][..0] == [];
    assert SortByDateDesc([ma]) == [ma];
    assert [ma, mb][..1] == [ma];
    assert SortByDateDesc([ma, mb]) == InsertByDate(mb, [ma]);
    LexLessAsymmetric(ma.date, mb.date);
  }

  /** In the worked example the June post is newer than the January one. */
  lemma ExampleDates()
    ensures LexLess(ToMeta("a", ExampleA.data).date, ToMeta("b", ExampleB.data).date)
  {
    assert ToMeta("a", ExampleA.data).date == "2024-0" + "1-01";
    assert ToMeta("b", ExampleB.data).date == "2024-0" + "6-01";
    LexLessCommonPrefix("2024-0", "1-01", "6-01");
  }

  /** The worked example: two published posts come back newest first, the draft is left out. */
  lemma ExampleListing()
    ensures GetAllPosts(Dir([ExampleA, ExampleB, ExampleC]))
         == [ToMeta("b", ExampleB.data), ToMeta("a", ExampleA.data)]
  {
    var ma, mb, mc := ToMeta("a", ExampleA.data), ToMeta("b", ExampleB.data), ToMeta("c", ExampleC.data);
    ExampleMdxMetas();
    ExamplePublishedOnly(ma, mb, mc);
    ExampleDates();
    ExampleSort(ma, mb);
  }

  /** The worked example: the draft resolves to NotFound although its file exists. */
  lemma ExampleDraftNotFound()
    ensures GetPostBySlug(Dir([ExampleA, ExampleB, ExampleC]), "c") == NotFound
  {
    var files := [ExampleA, ExampleB, ExampleC];
    assert files[1..] == [ExampleB, ExampleC] && [ExampleB, ExampleC][1..] == [ExampleC];
    assert Find([ExampleC], "c.mdx") == Some(ExampleC);
    assert Find([ExampleB, ExampleC], "c.mdx") == Some(ExampleC);
    assert Find(files, "c.mdx") == Some(ExampleC);
  }

  /** The worked example: a slug without a file resolves to NotFound. */
  lemma ExampleMissingNotFound()
    ensures GetPostBySlug(Dir([ExampleA, ExampleB, ExampleC]), "missing") == NotFound
  {
    assert Find([ExampleA, ExampleB, ExampleC], "missing.mdx") == None;
  }
}
