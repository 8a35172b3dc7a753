/**
 * lib/image-utils.ts: choosing a displayable image address for a product
 * record of any shape (`images` with `image_url`/`is_primary`, and an own
 * `image_url`).
 */
module ImageUtils {
  import opened Wrappers
  import opened SeqUtil
  import opened JsText

  /** The address shown when nothing usable is found. */
  const Placeholder: string := "/placeholder.svg?height=400&width=400"

  /** An entry of `images`: its `image_url` (missing or null as `None`) and `is_primary`. */
  datatype Picture = Picture(imageUrl: Option<string>, isPrimary: bool)

  /** The fields the helpers read from a product: `images` (absent as `None`) and `image_url`. */
  datatype Illustrated = Illustrated(images: Option<seq<Picture>>, imageUrl: Option<string>)

  /** A JavaScript-truthy address: present and not the empty string. */
  predicate Given(url: Option<string>) {
    url.Some? && url.value != ""
  }

  /**
   * getSafeImageUrl: the trimmed address when it holds a non-blank
   * character; otherwise the fallback when truthy, else the placeholder.
   */
  function SafeImageUrl(url: Option<string>, fallback: Option<string>): (r: string)
    ensures r != ""
    ensures Given(url) && !AllWhitespace(url.value) ==> r == Trim(url.value)
    ensures !(Given(url) && !AllWhitespace(url.value)) ==> r == (if Given(fallback) then fallback.value else Placeholder)
  {
    TrimEmptyIff(url.GetOr(""));
    if !Given(url) || Trim(url.value) == "" then
      (if Given(fallback) then fallback.value else Placeholder)
    else Trim(url.value)
  }

  /**
   * Feeding the result back in with the same fallback changes nothing,
   * provided the fallback is itself trimmed or blank.
   */
  lemma SafeImageUrlIdempotent(url: Option<string>, fallback: Option<string>)
    requires Given(fallback) ==> Trim(fallback.value) == fallback.value || AllWhitespace(fallback.value)
    ensures SafeImageUrl(Some(SafeImageUrl(url, fallback)), fallback) == SafeImageUrl(url, fallback)
  {
    var r := SafeImageUrl(url, fallback);
    if Given(url) && !AllWhitespace(url.value) {
      TrimIdempotent(url.value);
      TrimEmptyIff(url.value);
      TrimEmptyIff(r);
    } else if Given(fallback) {
      TrimEmptyIff(fallback.value);
    } else {
      TrimSolidEnds(Placeholder);
      TrimEmptyIff(Placeholder);
    }
  }

  /**
   * Without the condition on the fallback the result need not be stable: a
   * fallback with outer whitespace is returned as is, and a second
   * application trims it.
   */
  lemma SafeImageUrlUntrimmedFallback(fallback: string)
    requires !AllWhitespace(fallback) && Trim(fallback) != fallback
    ensures SafeImageUrl(None, Some(fallback)) == fallback
    ensures SafeImageUrl(Some(SafeImageUrl(None, Some(fallback))), Some(fallback)) == Trim(fallback) != fallback
  {
  }

  /** The pictures the chooser looks at: `images` when it is an array. */
  function PicturesOf(p: Illustrated): seq<Picture> {
    p.images.GetOr([])
  }

  predicate IsPrimary(x: Picture) {
    x.isPrimary
  }

  predicate HasAddress(x: Picture) {
    Given(x.imageUrl)
  }

  /**
   * getProductImageUrl: the first primary picture when it has an address,
   * else the first picture with an address, else the product's own
   * address, else the fallback; the winner goes through SafeImageUrl.
   */
  function ProductImageUrl(p: Illustrated, fallback: Option<string>): (r: string)
    ensures r != ""
  {
    var pics := PicturesOf(p);
    var primary := Find(IsPrimary, pics);
    var first := Find(HasAddress, pics);
    if primary.Some? && Given(primary.value.imageUrl) then SafeImageUrl(primary.value.imageUrl, fallback)
    else if first.Some? then SafeImageUrl(first.value.imageUrl, fallback)
    else if Given(p.imageUrl) then SafeImageUrl(p.imageUrl, fallback)
    else SafeImageUrl(None, fallback)
  }

  /** Position `i` holds the first primary picture. */
  predicate FirstPrimary(pics: seq<Picture>, i: int) {
    0 <= i < |pics| && pics[i].isPrimary && forall j :: 0 <= j < i ==> !pics[j].isPrimary
  }

  /** Position `i` holds the first picture with an address. */
  predicate FirstAddressed(pics: seq<Picture>, i: int) {
    0 <= i < |pics| && Given(pics[i].imageUrl) && forall j :: 0 <= j < i ==> !Given(pics[j].imageUrl)
  }

  /**
   * The preference order by position: the first primary picture wins when
   * it has an address (a later primary picture is never consulted); failing
   * that the first picture with an address; failing that the product's own
   * address or the fallback.
   */
  lemma ProductImageUrlChoice(p: Illustrated, fallback: Option<string>)
    ensures var pics := PicturesOf(p);
      forall i :: FirstPrimary(pics, i) && Given(pics[i].imageUrl) ==>
        ProductImageUrl(p, fallback) == SafeImageUrl(pics[i].imageUrl, fallback)
    ensures var pics := PicturesOf(p);
      forall i, k :: FirstAddressed(pics, i) && FirstPrimary(pics, k) && !Given(pics[k].imageUrl) ==>
        ProductImageUrl(p, fallback) == SafeImageUrl(pics[i].imageUrl, fallback)
    ensures var pics := PicturesOf(p);
      forall i :: FirstAddressed(pics, i) && (forall j :: 0 <= j < |pics| ==> !pics[j].isPrimary) ==>
        ProductImageUrl(p, fallback) == SafeImageUrl(pics[i].imageUrl, fallback)
    ensures var pics := PicturesOf(p);
      (forall j :: 0 <= j < |pics| ==> !Given(pics[j].imageUrl)) ==>
        ProductImageUrl(p, fallback) == SafeImageUrl(p.imageUrl, fallback)
  {
    var pics := PicturesOf(p);
    var pi := FirstIndex(IsPrimary, pics);
    var ai := FirstIndex(HasAddress, pics);
    assert Find(IsPrimary, pics) == if pi.Some? then Some(pics[pi.value]) else None;
    assert Find(HasAddress, pics) == if ai.Some? then Some(pics[ai.value]) else None;
    forall i | FirstPrimary(pics, i) ensures pi == Some(i) {
      assert IsPrimary(pics[i]);
    }
    forall i | FirstAddressed(pics, i) ensures ai == Some(i) {
      assert HasAddress(pics[i]);
    }
  }

  /** A picture getProductImages keeps: its cleaned address is not the placeholder. */
  predicate Usable(x: Picture) {
    SafeImageUrl(x.imageUrl, None) != Placeholder
  }

  /** The cleaned address of a picture. */
  function Address(x: Picture): string {
    SafeImageUrl(x.imageUrl, None)
  }

  /** The cleaned addresses of the usable pictures, built up from the end of the list. */
  function Addresses(pics: seq<Picture>): (r: seq<string>)
    ensures |r| <= |pics|
    ensures forall k :: 0 <= k < |r| ==> r[k] != Placeholder && r[k] != ""
  {
    if pics == [] then []
    else
      var last := pics[|pics| - 1];
      Addresses(pics[..|pics| - 1]) + (if Usable(last) then [Address(last)] else [])
  }

  /** Addresses is the array-order list of cleaned usable addresses. */
  lemma {:induction false} AddressesInOrder(pics: seq<Picture>)
    ensures Addresses(pics) == Map(Address, Filter(Usable, pics))
  {
    if pics != [] {
      var front := pics[..|pics| - 1];
      var last := pics[|pics| - 1];
      assert pics == front + [last];
      AddressesInOrder(front);
      FilterAppend(Usable, front, [last]);
      MapAppend(Address, Filter(Usable, front), Filter(Usable, [last]));
    }
  }

  /** No address is collected exactly when no picture is usable. */
  lemma {:induction false} AddressesEmpty(pics: seq<Picture>)
    ensures Addresses(pics) == [] <==> forall i :: 0 <= i < |pics| ==> !Usable(pics[i])
  {
    if pics != [] {
      var front := pics[..|pics| - 1];
      AddressesEmpty(front);
      assert forall i :: 0 <= i < |front| ==> front[i] == pics[i];
    }
  }

  /** The product's own address as getProductImages adds it: truthy, cleaned, not the placeholder, not yet listed. */
  function OwnAddition(p: Illustrated, urls: seq<string>): seq<string> {
    var own := SafeImageUrl(p.imageUrl, None);
    if Given(p.imageUrl) && own != Placeholder && own !in urls then [own] else []
  }

  /**
   * The list getProductImages returns: the picture addresses in array
   * order, then the product's own address when new, or the placeholder
   * alone when that is empty.
   */
  function Gallery(p: Illustrated): (r: seq<string>)
    ensures r != []
  {
    var urls := Addresses(PicturesOf(p)) + OwnAddition(p, Addresses(PicturesOf(p)));
    if urls == [] then [Placeholder] else urls
  }

  /** getProductImages, collecting the picture addresses in one pass over `images`. */
  method ProductImages(p: Illustrated) returns (images: seq<string>)
    ensures images == Gallery(p)
  {
    images := [];
    var pics := PicturesOf(p);
    for k := 0 to |pics|
      invariant images == Addresses(pics[..k])
    {
      assert pics[..k + 1][..k] == pics[..k];
      var safeUrl := SafeImageUrl(pics[k].imageUrl, None);
      if safeUrl != Placeholder {
        images := images + [safeUrl];
      }
    }
    assert pics[..|pics|] == pics;
    if Given(p.imageUrl) {
      var safeUrl := SafeImageUrl(p.imageUrl, None);
      if safeUrl != Placeholder && safeUrl !in images {
        images := images + [safeUrl];
      }
    }
    if |images| == 0 {
      images := images + [Placeholder];
    }
  }

  /**
   * The placeholder comes back exactly when no picture is usable and the
   * product's own address is missing, blank or the placeholder itself.
   */
  lemma GalleryPlaceholder(p: Illustrated)
    ensures var pics := PicturesOf(p);
      Gallery(p) == [Placeholder] <==>
        (forall i :: 0 <= i < |pics| ==> !Usable(pics[i]))
        && !(Given(p.imageUrl) && SafeImageUrl(p.imageUrl, None) != Placeholder)
  {
    var pics := PicturesOf(p);
    var urls := Addresses(pics);
    var extra := OwnAddition(p, urls);
    AddressesEmpty(pics);
    if urls != [] {
      assert Gallery(p) == urls + extra;
      assert Gallery(p)[0] == urls[0];
    } else if extra != [] {
      assert Gallery(p) == extra;
    } else {
      assert Gallery(p) == [Placeholder];
    }
  }

  /**
   * The gallery starts with the picture addresses in array order, the
   * product's own usable address is always in it, and it holds at most one
   * entry beyond the usable pictures. The own address is appended exactly
   * when it is usable and not yet listed, and an entry past the picture
   * addresses is that address.
   */
  lemma GalleryOrder(p: Illustrated)
    ensures var urls := Map(Address, Filter(Usable, PicturesOf(p)));
      urls != [] ==> |urls| <= |Gallery(p)| && Gallery(p)[..|urls|] == urls
    ensures var own := SafeImageUrl(p.imageUrl, None);
      Given(p.imageUrl) && own != Placeholder ==> own in Gallery(p)
    ensures |Gallery(p)| <= |Filter(Usable, PicturesOf(p))| + 1
    ensures var urls := Map(Address, Filter(Usable, PicturesOf(p)));
      var own := SafeImageUrl(p.imageUrl, None);
      Given(p.imageUrl) && own != Placeholder && own !in urls ==> Gallery(p) == urls + [own]
    ensures var urls := Map(Address, Filter(Usable, PicturesOf(p)));
      var own := SafeImageUrl(p.imageUrl, None);
      urls != [] && !(Given(p.imageUrl) && own != Placeholder && own !in urls) ==> Gallery(p) == urls
    ensures var urls := Map(Address, Filter(Usable, PicturesOf(p)));
      var own := SafeImageUrl(p.imageUrl, None);
      |Gallery(p)| == |urls| + 1 ==> Gallery(p)[|urls|] == own && own !in urls
  {
    var pics := PicturesOf(p);
    AddressesInOrder(pics);
    var urls := Addresses(pics);
    var extra := OwnAddition(p, urls);
    var own := SafeImageUrl(p.imageUrl, None);
    if urls + extra != [] {
      assert Gallery(p) == urls + extra;
      assert (urls + extra)[..|urls|] == urls;
      if Given(p.imageUrl) && own != Placeholder {
        if own in urls {
          assert own in urls + extra;
        } else {
          assert extra == [own];
          assert (urls + extra)[|urls|] == own;
        }
      } else {
        assert extra == [];
      }
    } else {
      assert extra == [];
      assert own == Placeholder;
    }
  }
}
