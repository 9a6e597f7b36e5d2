/** The gallery page: a fixed list of mock images narrowed by a
    case-insensitive search over their prompts. */
module Gallery {
  import opened Seqs

  datatype GalleryImage = GalleryImage(id: int, imageUrl: string, prompt: string, date: string)

  const MockImages: seq<GalleryImage> := [
    GalleryImage(1, "https://source.unsplash.com/random/600x600?nature",
      "A serene mountain landscape with a crystal clear lake reflecting the sunset", "2023-10-15"),
    GalleryImage(2, "https://source.unsplash.com/random/600x600?city",
      "Futuristic cityscape with neon lights and flying cars in a cyberpunk style", "2023-10-14"),
    GalleryImage(3, "https://source.unsplash.com/random/600x600?portrait",
      "Portrait of a young woman with flowing red hair in a forest setting", "2023-10-12"),
    GalleryImage(4, "https://source.unsplash.com/random/600x600?abstract",
      "Abstract geometric shapes in vibrant colors with a minimal design", "2023-10-10"),
    GalleryImage(5, "https://source.unsplash.com/random/600x600?food",
      "A gourmet dessert with chocolate and berries, styled for food photography", "2023-10-08"),
    GalleryImage(6, "https://source.unsplash.com/random/600x600?architecture",
      "Modern minimalist architecture with clean lines and large glass windows", "2023-10-05"),
    GalleryImage(7, "https://source.unsplash.com/random/600x600?animal",
      "A majestic tiger walking through a misty jungle at dawn", "2023-10-03"),
    GalleryImage(8, "https://source.unsplash.com/random/600x600?space",
      "Deep space nebula with stars and planets in vibrant purple and blue colors", "2023-10-01")
  ]

  /** `toLowerCase` on one character, for the Latin capitals A to Z. */
  function ToLowerChar(c: char): (r: char)
    // capitals become their small letter, every other character is kept
    ensures 'A' <= c <= 'Z' ==> 'a' <= r <= 'z' && r as int == c as int + 32
    ensures !('A' <= c <= 'Z') ==> r == c
    // and no capital is left
    ensures !('A' <= r <= 'Z')
  {
    if 'A' <= c <= 'Z' then (c as int + 32) as char else c
  }

  /** `s.toLowerCase()`, one character at a time. */
  function ToLower(s: string): (r: string)
    ensures |r| == |s|
    ensures forall i :: 0 <= i < |s| ==> r[i] == ToLowerChar(s[i])
    ensures forall i :: 0 <= i < |r| ==> !('A' <= r[i] <= 'Z')
  {
    seq(|s|, i requires 0 <= i < |s| => ToLowerChar(s[i]))
  }

  /** `s.includes(sub)`: `sub` occurs in `s` (the empty string occurs everywhere). */
  predicate Includes(s: string, sub: string)
    // the empty string is included in every string
    ensures sub == [] ==> Includes(s, sub)
  {
    sub <= s || (s != [] && Includes(s[1..], sub))
  }

  /** `sub` occurs in `s` starting at position `i`. */
  predicate OccursAt(s: string, sub: string, i: int) {
    0 <= i <= |s| - |sub| && s[i..i + |sub|] == sub
  }

  /** `Includes` finds exactly the substrings of `s`. */
  lemma {:induction false} IncludesIff(s: string, sub: string)
    ensures Includes(s, sub) <==> exists i :: OccursAt(s, sub, i)
  {
    assert OccursAt(s, sub, 0) <==> sub <= s;
    if s != [] && !(sub <= s) {
      IncludesIff(s[1..], sub);
      forall i | OccursAt(s[1..], sub, i)
        ensures OccursAt(s, sub, i + 1)
      {
        assert s[1..][i..i + |sub|] == s[i + 1..i + 1 + |sub|];
      }
      forall i | 1 <= i && OccursAt(s, sub, i)
        ensures OccursAt(s[1..], sub, i - 1)
      {
        assert s[1..][i - 1..i - 1 + |sub|] == s[i..i + |sub|];
      }
    }
  }

  /** The filter callback: the lower-cased prompt contains the lower-cased query. */
  predicate MatchesQuery(searchQuery: string, image: GalleryImage)
    ensures MatchesQuery(searchQuery, image) <==> exists i :: OccursAt(ToLower(image.prompt), ToLower(searchQuery), i)
  {
    IncludesIff(ToLower(image.prompt), ToLower(searchQuery));
    Includes(ToLower(image.prompt), ToLower(searchQuery))
  }

  /** The images of `images` whose prompt contains the query, ignoring case. */
  function Search(images: seq<GalleryImage>, searchQuery: string): (r: seq<GalleryImage>)
    ensures |r| <= |images|
    ensures forall image :: image in r <==> image in images && MatchesQuery(searchQuery, image)
  {
    FilterMembers(image => MatchesQuery(searchQuery, image), images);
    Filter(image => MatchesQuery(searchQuery, image), images)
  }

  /** Ids that increase along `images`, as the mock list's ids do. */
  ghost predicate IdsIncrease(images: seq<GalleryImage>) {
    forall i, j :: 0 <= i < j < |images| ==> images[i].id < images[j].id
  }

  /** The search result is the matching images, all of them, in their order. */
  lemma SearchPicksMatches(images: seq<GalleryImage>, searchQuery: string)
    requires IdsIncrease(images)
    ensures forall k :: 0 <= k < |Search(images, searchQuery)| ==>
      Search(images, searchQuery)[k] in images && MatchesQuery(searchQuery, Search(images, searchQuery)[k])
    ensures forall i :: 0 <= i < |images| ==>
      (MatchesQuery(searchQuery, images[i]) <==> images[i] in Search(images, searchQuery))
    ensures IdsIncrease(Search(images, searchQuery))
  {
    var p := image => MatchesQuery(searchQuery, image);
    FilterPicksOut(p, images);
    FilterMembers(p, images);
    var r, idx := Filter(p, images), KeptIndices(p, images);
    assert forall k :: 0 <= k < |r| ==> r[k] in r;
    forall k, l | 0 <= k < l < |r|
      ensures r[k].id < r[l].id
    {
      assert r[k] == images[idx[k]] && r[l] == images[idx[l]];
    }
  }

  /** The images shown for a search query and a filter option; the filter
      option is kept by the page but plays no part in the filtering. */
  function FilteredImages(searchQuery: string, filterOption: string): (r: seq<GalleryImage>)
    // every shown image is a mock image that matches, and every mock image that matches is shown
    ensures forall k :: 0 <= k < |r| ==> r[k] in MockImages && MatchesQuery(searchQuery, r[k])
    ensures forall i :: 0 <= i < |MockImages| ==> (MatchesQuery(searchQuery, MockImages[i]) <==> MockImages[i] in r)
    // in the original order
    ensures IdsIncrease(r)
  {
    MockIdsIncrease();
    SearchPicksMatches(MockImages, searchQuery);
    Search(MockImages, searchQuery)
  }

  lemma MockIdsIncrease()
    ensures IdsIncrease(MockImages)
  {
  }

  /** What the page renders below the search bar. */
  datatype GalleryView = Grid(images: seq<GalleryImage>) | NoImagesFound

  function View(searchQuery: string, filterOption: string): (v: GalleryView)
    // the empty state is shown exactly when no mock image matches
    ensures v.NoImagesFound? <==> forall i :: 0 <= i < |MockImages| ==> !MatchesQuery(searchQuery, MockImages[i])
    ensures v.Grid? ==> v.images != []
  {
    var images := FilteredImages(searchQuery, filterOption);
    assert images != [] ==> exists i :: 0 <= i < |MockImages| && MockImages[i] == images[0];
    if |images| > 0 then Grid(images) else NoImagesFound
  }

  /** An empty search shows all eight mock images. */
  lemma EmptyQueryShowsAll(filterOption: string)
    ensures FilteredImages("", filterOption) == MockImages
    ensures |FilteredImages("", filterOption)| == 8
  {
    var p := image => MatchesQuery("", image);
    forall i | 0 <= i < |MockImages|
      ensures p(MockImages[i])
    {
      assert ToLower("") == "";
    }
    FilterKeepsAll(p, MockImages);
  }

  /** The filter option never changes what is shown. */
  lemma FilterOptionIgnored(searchQuery: string, filterOption: string, otherOption: string)
    ensures FilteredImages(searchQuery, filterOption) == FilteredImages(searchQuery, otherOption)
  {
  }

  /** Queries that differ only in letter case show the same images. */
  lemma CaseInsensitive(query: string, other: string, filterOption: string)
    requires |query| == |other|
    requires forall i :: 0 <= i < |query| ==> ToLowerChar(query[i]) == ToLowerChar(other[i])
    ensures FilteredImages(query, filterOption) == FilteredImages(other, filterOption)
  {
    assert ToLower(query) == ToLower(other);
    FilterCongruent(image => MatchesQuery(query, image), image => MatchesQuery(other, image), MockImages);
  }
}
