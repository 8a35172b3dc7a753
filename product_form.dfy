/**
 * components/admin/product-form.tsx: the slug generator, the form state the
 * admin edits (text fields and the list of image addresses) and the image
 * list the form submits.
 */
module ProductForm {
  import opened Wrappers
  import opened SeqUtil
  import opened JsText
  import opened Records

  /** The characters a slug keeps: `[a-z0-9]`. */
  predicate IsAlnum(c: char) {
    'a' <= c <= 'z' || '0' <= c <= '9'
  }

  /** The lower-case Cyrillic range `[а-я]` (U+0430..U+044F); `ё` (U+0451) lies outside it. */
  predicate IsCyrillic(c: char) {
    'а' <= c <= 'я'
  }

  /** The transliteration table; `ъ` and `ь` map to the empty string. */
  function Table(c: char): string {
    match c
    case 'а' => "a"   case 'б' => "b"   case 'в' => "v"   case 'г' => "g"
    case 'д' => "d"   case 'е' => "e"   case 'ё' => "yo"  case 'ж' => "zh"
    case 'з' => "z"   case 'и' => "i"   case 'й' => "y"   case 'к' => "k"
    case 'л' => "l"   case 'м' => "m"   case 'н' => "n"   case 'о' => "o"
    case 'п' => "p"   case 'р' => "r"   case 'с' => "s"   case 'т' => "t"
    case 'у' => "u"   case 'ф' => "f"   case 'х' => "h"   case 'ц' => "ts"
    case 'ч' => "ch"  case 'ш' => "sh"  case 'щ' => "sch" case 'ъ' => ""
    case 'ы' => "y"   case 'ь' => ""    case 'э' => "e"   case 'ю' => "yu"
    case 'я' => "ya"
    case _ => ""
  }

  /** The replacement of one character: `map[char] || char` inside the range, the character itself outside. */
  function Replacement(c: char): string {
    if IsCyrillic(c) && Table(c) != "" then Table(c) else [c]
  }

  /** The first `replace`: every character of the range by its replacement. */
  function Transliterate(s: string): string {
    if s == [] then [] else Replacement(s[0]) + Transliterate(s[1..])
  }

  /** Drops the leading run of characters outside `[a-z0-9]`. */
  function DropRun(s: string): (r: string)
    ensures |r| <= |s|
    ensures r == [] || IsAlnum(r[0])
  {
    if s != [] && !IsAlnum(s[0]) then DropRun(s[1..]) else s
  }

  /** A string over `[a-z0-9-]` without two dashes in a row. */
  predicate Dashed(s: string) {
    && (forall i :: 0 <= i < |s| ==> IsAlnum(s[i]) || s[i] == '-')
    && (forall i :: 0 <= i < |s| - 1 ==> s[i] != '-' || s[i + 1] != '-')
  }

  /** The second `replace`: each run of characters outside `[a-z0-9]` becomes one dash. */
  function Collapse(s: string): (r: string)
    ensures Dashed(r)
    ensures s == [] <==> r == []
    ensures s != [] ==> (IsAlnum(s[0]) <==> r[0] != '-')
    decreases |s|
  {
    if s == [] then []
    else if IsAlnum(s[0]) then [s[0]] + Collapse(s[1..])
    else "-" + Collapse(DropRun(s[1..]))
  }

  function TrimLeadingDashes(s: string): (r: string)
    ensures r == [] || r[0] != '-'
    ensures |r| <= |s| && r == s[|s| - |r|..]
  {
    if s != [] && s[0] == '-' then TrimLeadingDashes(s[1..]) else s
  }

  function TrimTrailingDashes(s: string): (r: string)
    ensures r == [] || r[|r| - 1] != '-'
    ensures |r| <= |s| && r == s[..|r|]
  {
    if s != [] && s[|s| - 1] == '-' then TrimTrailingDashes(s[..|s| - 1]) else s
  }

  /** A well-formed slug: `[a-z0-9-]`, no dash at either end, no two dashes in a row. */
  predicate IsSlug(s: string) {
    Dashed(s) && (s != [] ==> s[0] != '-' && s[|s| - 1] != '-')
  }

  /** The third `replace`: the dashes at both ends removed. */
  function TrimDashes(s: string): string {
    TrimTrailingDashes(TrimLeadingDashes(s))
  }

  /** Trimming the end dashes of a dashed string leaves a slug. */
  lemma TrimDashesSlug(s: string)
    requires Dashed(s)
    ensures IsSlug(TrimDashes(s))
  {
    var a := TrimLeadingDashes(s);
    DashedSlice(s, |s| - |a|, |s|);
    var r := TrimTrailingDashes(a);
    DashedSlice(a, 0, |r|);
    assert a[0..|r|] == r;
    if r != [] {
      assert r[0] == a[0];
    }
  }

  /** Every slice of a dashed string is dashed. */
  lemma DashedSlice(s: string, lo: int, hi: int)
    requires Dashed(s) && 0 <= lo <= hi <= |s|
    ensures Dashed(s[lo..hi])
  {
    var t := s[lo..hi];
    assert forall i :: 0 <= i < |t| ==> t[i] == s[lo + i];
  }

  /** generateSlug. */
  function GenerateSlug(name: string): (r: string)
    ensures IsSlug(r)
  {
    TrimDashesSlug(Collapse(Transliterate(ToLower(name))));
    TrimDashes(Collapse(Transliterate(ToLower(name))))
  }

  /** Outside the Cyrillic range nothing is transliterated. */
  lemma {:induction false} TransliterateOther(s: string)
    requires forall i :: 0 <= i < |s| ==> !IsCyrillic(s[i])
    ensures Transliterate(s) == s
  {
    if s != [] {
      TransliterateOther(s[1..]);
    }
  }

  /** Collapsing a string already over `[a-z0-9-]` without double dashes changes nothing. */
  lemma {:induction false} CollapseDashed(s: string)
    requires Dashed(s)
    ensures Collapse(s) == s
    decreases |s|
  {
    if s != [] {
      CollapseDashed(s[1..]);
      if !IsAlnum(s[0]) {
        assert DropRun(s[1..]) == s[1..];
      }
    }
  }

  /** A slug is its own slug. */
  lemma SlugFixed(s: string)
    requires IsSlug(s)
    ensures GenerateSlug(s) == s
  {
    assert ToLower(s) == s;
    TransliterateOther(s);
    CollapseDashed(s);
  }

  /** generateSlug is idempotent. */
  lemma GenerateSlugIdempotent(name: string)
    ensures GenerateSlug(GenerateSlug(name)) == GenerateSlug(name)
  {
    SlugFixed(GenerateSlug(name));
  }

  /**
   * Every letter of the range is replaced by its table entry, a non-empty
   * run of Latin letters, except `ъ` and `ь`, whose empty entry makes the
   * `||` fall back to the letter itself.
   */
  lemma ReplacementTable(c: char)
    requires IsCyrillic(c)
    ensures c != 'ъ' && c != 'ь' ==> Replacement(c) == Table(c) && Table(c) != "" && forall i :: 0 <= i < |Table(c)| ==> 'a' <= Table(c)[i] <= 'z'
    ensures c == 'ъ' || c == 'ь' ==> Replacement(c) == [c] && !IsAlnum(c)
  {
  }

  /** The hard sign is kept by the fallback and then turned into a separator. */
  lemma HardSignSeparates()
    ensures GenerateSlug("съел") == "s-el"
  {
    var w := "съел";
    assert ToLower(w) == w;
    assert w[1..] == "ъел" && w[1..][1..] == "ел" && w[1..][1..][1..] == "л";
    assert Transliterate("л") == "l";
    assert Transliterate("ел") == "el";
    assert Transliterate("ъел") == "ъel";
    assert Transliterate(w) == "sъel";
    var t := "sъel";
    assert t[1..] == "ъel" && t[1..][1..] == "el" && t[2..][1..] == "l";
    assert Collapse("l") == "l";
    assert Collapse("el") == "el";
    assert DropRun("el") == "el";
    assert Collapse("ъel") == "-el";
    assert Collapse(t) == "s-el";
    assert TrimDashes("s-el") == "s-el";
  }

  /** `ё` is outside the range, so it becomes a separator and is trimmed at the start. */
  lemma YoIsDropped()
    ensures GenerateSlug("Ёж") == "zh"
  {
    var w := "Ёж";
    assert ToLower(w) == "ёж";
    assert "ёж"[1..] == "ж";
    assert Transliterate("ж") == "zh";
    assert Transliterate("ёж") == "ёzh";
    var t := "ёzh";
    assert t[1..] == "zh" && t[1..][1..] == "h";
    assert DropRun("zh") == "zh";
    assert Collapse("h") == "h";
    assert Collapse("zh") == "zh";
    assert Collapse(t) == "-zh";
    assert TrimLeadingDashes("-zh") == "zh";
    assert TrimDashes("-zh") == "zh";
  }

  /** `prev.filter((_, i) => i !== index)`: the list without the entry at position `index`. */
  function WithoutIndex<T>(s: seq<T>, index: int): (r: seq<T>)
    ensures |r| <= |s|
  {
    if s == [] then [] else (if index == 0 then [] else [s[0]]) + WithoutIndex(s[1..], index - 1)
  }

  /** Exactly the entry at `index` goes, the rest keep their order; an index out of range removes nothing. */
  lemma {:induction false} WithoutIndexSplice<T>(s: seq<T>, index: int)
    ensures 0 <= index < |s| ==> WithoutIndex(s, index) == s[..index] + s[index + 1..]
    ensures !(0 <= index < |s|) ==> WithoutIndex(s, index) == s
  {
    if s != [] {
      WithoutIndexSplice(s[1..], index - 1);
      if 0 < index < |s| {
        assert s[1..][..index - 1] == s[1..index];
        assert s[1..][index..] == s[index + 1..];
        assert [s[0]] + s[1..index] == s[..index];
      }
    }
  }

  /** The images of the submitted body: position as `sort_order`, primary only at position 0, the product name as alt text. */
  function ImagePayload(urls: seq<string>, name: string): (r: seq<ProductImage>)
    ensures |r| == |urls|
  {
    seq(|urls|, i requires 0 <= i < |urls| => ProductImage(None, urls[i], name, i, i == 0))
  }

  predicate IsPrimaryImage(x: ProductImage) {
    x.isPrimary
  }

  /** A non-empty payload has exactly one primary image, the first, and keeps the addresses in order. */
  lemma ImagePayloadPrimary(urls: seq<string>, name: string)
    ensures urls != [] ==> Filter(IsPrimaryImage, ImagePayload(urls, name)) == [ImagePayload(urls, name)[0]]
    ensures urls == [] ==> Filter(IsPrimaryImage, ImagePayload(urls, name)) == []
    ensures forall i :: 0 <= i < |urls| ==> ImagePayload(urls, name)[i].imageUrl == urls[i] && ImagePayload(urls, name)[i].sortOrder == i
  {
    var r := ImagePayload(urls, name);
    if urls != [] {
      FilterNone(IsPrimaryImage, r[1..]);
      assert r == [r[0]] + r[1..];
      FilterAppend(IsPrimaryImage, [r[0]], r[1..]);
    }
  }

  /**
   * The form's state: its text fields by name (`name`, `slug`, ...) and the
   * image addresses; `editing` is set when the form was opened on an
   * existing product.
   */
  class FormState {
    const editing: bool
    var formData: map<string, string>
    var images: seq<string>

    constructor (editing: bool, formData: map<string, string>, images: seq<string>)
      ensures this.editing == editing && this.formData == formData && this.images == images
    {
      this.editing := editing;
      this.formData := formData;
      this.images := images;
    }

    /**
     * handleInputChange: the field takes the value; a new name also
     * regenerates the slug, but only while creating a product.
     */
    method HandleInputChange(field: string, value: string)
      modifies this`formData
      ensures formData == if field == "name" && !editing
        then old(formData)[field := value]["slug" := GenerateSlug(value)]
        else old(formData)[field := value]
      ensures field == "name" && !editing ==> IsSlug(formData["slug"])
    {
      formData := formData[field := value];
      if field == "name" && !editing {
        formData := formData["slug" := GenerateSlug(value)];
      }
    }

    /** removeImage: drops exactly the image at `index`. */
    method RemoveImage(index: int)
      modifies this`images
      ensures images == WithoutIndex(old(images), index)
      ensures 0 <= index < |old(images)| ==> images == old(images)[..index] + old(images)[index + 1..]
      ensures !(0 <= index < |old(images)|) ==> images == old(images)
    {
      WithoutIndexSplice(images, index);
      images := WithoutIndex(images, index);
    }

  }
}
