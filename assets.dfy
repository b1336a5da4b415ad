/** The image cache: one image object per source string, created on first
    request and handed out again on every later one. */
module Assets {
  import opened Base
  import opened Types

  /** A browser image; decoding fills in the fields after creation. */
  class Image {
    const src: string
    var complete: bool
    var naturalWidth: int
    var naturalHeight: int

    /** `new Image()` followed by `img.src = src`: not decoded yet. */
    constructor (src: string)
      ensures this.src == src && State() == ImgState(false, 0, 0)
    {
      this.src := src;
      complete := false;
      naturalWidth := 0;
      naturalHeight := 0;
    }

    function State(): ImgState
      reads this
    {
      ImgState(complete, naturalWidth, naturalHeight)
    }
  }

  /** What the renderer reads of an image. */
  datatype ImgState = ImgState(complete: bool, naturalWidth: int, naturalHeight: int)

  /** `imgReady` on the state of a defined image. */
  predicate Ready(s: ImgState) {
    s.complete && s.naturalWidth > 0 && s.naturalHeight > 0
  }

  /** `imgReady(img)`: defined, decoded, and of non-zero size. */
  predicate ImgReady(img: Option<Image>)
    reads if img.Some? then {img.value} else {}
  {
    img.Some? && Ready(img.value.State())
  }

  /** A source string that `!src` does not reject. */
  predicate Given(src: Option<string>) {
    src.Some? && src.value != ""
  }

  /** The keys a load adds to the cache. */
  function Adds(src: Option<string>): (r: set<string>)
    ensures Given(src) <==> r != {}
    ensures Given(src) ==> r == {src.value}
  {
    if Given(src) then {src.value} else {}
  }

  /** The sources `loadThemeImages` requests, in order. */
  function ThemeSources(theme: Theme): (r: seq<Option<string>>)
    ensures var i := theme.images;
      && (i.backgroundLayers.Some? ==> forall l :: l in i.backgroundLayers.value ==> Some(l.src) in r)
      && (i.ground.Some? ==> Some(i.ground.value.src) in r)
      && (i.cactus.Some? ==> Some(i.cactus.value.src) in r)
      && (i.bird.Some? ==> Some(i.bird.value.src) in r)
      && (i.player.Some? ==> Some(i.player.value.src) in r)
      && (i.billboardFrame.Some? ==> Some(i.billboardFrame.value.src) in r)
  {
    var i := theme.images;
    var layers := i.backgroundLayers.GetOr([]);
    LayerSources(layers)
    + [if i.ground.Some? then Some(i.ground.value.src) else None,
       if i.cactus.Some? then Some(i.cactus.value.src) else None,
       if i.bird.Some? then Some(i.bird.value.src) else None,
       if i.player.Some? then Some(i.player.value.src) else None,
       if i.billboardFrame.Some? then Some(i.billboardFrame.value.src) else None]
  }

  function LayerSources(layers: seq<BgLayer>): (r: seq<Option<string>>)
    ensures |r| == |layers| && forall k :: 0 <= k < |layers| ==> r[k] == Some(layers[k].src)
  {
    seq(|layers|, k requires 0 <= k < |layers| => Some(layers[k].src))
  }

  /** The set of keys after loading `srcs` one by one. */
  function AllAdds(srcs: seq<Option<string>>): (r: set<string>)
    ensures forall s :: s in srcs && Given(s) ==> s.value in r
    ensures forall k :: k in r ==> Some(k) in srcs && k != ""
  {
    if srcs == [] then {} else AllAdds(srcs[..|srcs| - 1]) + Adds(srcs[|srcs| - 1])
  }

  /** Every entry of `a` is still in `b`, unchanged. */
  predicate Extends(a: map<string, Image>, b: map<string, Image>) {
    forall k :: k in a ==> k in b && b[k] == a[k]
  }

  lemma ExtendsTrans(a: map<string, Image>, b: map<string, Image>, c: map<string, Image>)
    requires Extends(a, b) && Extends(b, c)
    ensures Extends(a, c)
  {
  }

  /** The module-level `cache` map. */
  class ImageCache {
    var entries: map<string, Image>

    /** Every image is stored under its own source string. */
    ghost predicate Valid()
      reads this
    {
      forall k :: k in entries ==> entries[k].src == k
    }

    constructor ()
      ensures entries == map[] && Valid()
    {
      entries := map[];
    }

    /** The decoded images the renderer can use, by source. */
    ghost function ReadyImages(): map<string, ImgState>
      reads this, entries.Values
    {
      map k | k in entries && Ready(entries[k].State()) :: entries[k].State()
    }

    /** `loadImage(src)`. */
    method LoadImage(src: Option<string>) returns (img: Option<Image>)
      requires Valid()
      modifies this
      ensures Valid()
      ensures entries.Keys == old(entries.Keys) + Adds(src)
      ensures Extends(old(entries), entries)
      ensures !Given(src) ==> img == None
      ensures Given(src) ==> img.Some? && img.value.src == src.value && entries[src.value] == img.value
      ensures Given(src) && src.value in old(entries) ==> img == Some(old(entries)[src.value])
      ensures Given(src) && src.value !in old(entries) ==> fresh(img.value) && img.value.State() == ImgState(false, 0, 0)
      ensures ReadyImages() == old(ReadyImages())
    {
      if !Given(src) {
        return None;
      }
      if src.value in entries {
        return Some(entries[src.value]);
      }
      var made := new Image(src.value);
      entries := entries[src.value := made];
      return Some(made);
    }

    /** `loadThemeImages(theme)`: every source the theme names is cached
        afterwards, and nothing cached before is replaced. */
    method LoadThemeImages(theme: Theme)
      requires Valid()
      modifies this
      ensures Valid()
      ensures entries.Keys == old(entries.Keys) + AllAdds(ThemeSources(theme))
      ensures Extends(old(entries), entries)
      ensures ReadyImages() == old(ReadyImages())
    {
      var srcs := ThemeSources(theme);
      ghost var keys := entries.Keys;
      ghost var ready := ReadyImages();
      for n := 0 to |srcs|
        invariant Valid() && ReadyImages() == ready
        invariant entries.Keys == keys + AllAdds(srcs[..n])
        invariant Extends(old(entries), entries)
      {
        ghost var before := entries.Keys;
        ghost var was := entries;
        var _ := LoadImage(srcs[n]);
        ExtendsTrans(old(entries), was, entries);
        AllAddsStep(srcs, n);
        assert entries.Keys == before + Adds(srcs[n]);
      }
      assert srcs[..|srcs|] == srcs;
    }
  }

  /** Loading the same non-empty source twice hands out the same image, and
      the second load changes nothing. */
  method LoadTwice(cache: ImageCache, src: string) returns (a: Option<Image>, b: Option<Image>)
    requires cache.Valid() && src != ""
    modifies cache
    ensures a.Some? && a == b
    ensures cache.entries.Keys == old(cache.entries.Keys) + {src}
  {
    a := cache.LoadImage(Some(src));
    ghost var between := cache.entries;
    b := cache.LoadImage(Some(src));
    assert cache.entries == between;
  }

  /** One more source adds what loading it adds. */
  lemma AllAddsStep(srcs: seq<Option<string>>, n: nat)
    requires n < |srcs|
    ensures AllAdds(srcs[..n + 1]) == AllAdds(srcs[..n]) + Adds(srcs[n])
  {
    assert srcs[..n + 1][..n] == srcs[..n];
  }

  /** Loading a sequence of sources in two parts adds what each part adds. */
  lemma {:induction false} AllAddsAppend(a: seq<Option<string>>, b: seq<Option<string>>)
    ensures AllAdds(a + b) == AllAdds(a) + AllAdds(b)
  {
    if b == [] {
      assert a + b == a;
    } else {
      AllAddsAppend(a, b[..|b| - 1]);
      assert (a + b)[..|a + b| - 1] == a + b[..|b| - 1];
    }
  }

  /** Loading the theme's images a second time adds no cache key. */
  lemma ThemeReloadAddsNothing(theme: Theme)
    ensures var srcs := ThemeSources(theme); AllAdds(srcs + srcs) == AllAdds(srcs)
  {
    var srcs := ThemeSources(theme);
    AllAddsAppend(srcs, srcs);
  }
}
