/** Normalisation of two plugin parameters after JSON decoding: the icon
    table (command symbol to image file) and the list of decorative images.
    Each parameter is a JSON array whose elements may themselves be JSON text. */
module MenuConfig {
  import opened JsValues

  /** One element of the icon list, after decoding it when it was text: text
      that does not decode is skipped; a `null` element makes the reading of
      its fields throw, which ends the whole list (the outer `catch` keeps the
      table built so far); anything else is read for `symbol` and `image`. */
  datatype IconEntry = UnparseableIcon | NullIcon | Icon(symbol: Field, image: Field)

  /** The icon table built from `entries`, and whether a `null` ended it. */
  function IconsFrom(entries: seq<IconEntry>): (r: (map<string, string>, bool))
    ensures forall k :: k in r.0 ==> k != "" && r.0[k] != ""
    ensures r.1 <==> NullIcon in entries
    decreases |entries|
  {
    if entries == [] then (map[], false)
    else
      var front := entries[..|entries| - 1];
      var last := entries[|entries| - 1];
      assert NullIcon in entries <==> NullIcon in front || last == NullIcon;
      var (icons, stopped) := IconsFrom(front);
      if stopped then (icons, true)
      else match last
        case UnparseableIcon => (icons, false)
        case NullIcon => (icons, true)
        case Icon(symbol, image) =>
          if Truthy(symbol) && Truthy(image) then (icons[symbol.s := image.s], false) else (icons, false)
  }

  /** `cfg.menuIcons`: `None` stands for a parameter that is not JSON or not an array. */
  function MenuIcons(list: Option<seq<IconEntry>>): (r: map<string, string>)
    ensures list.None? ==> r == map[]
    ensures forall k :: k in r ==> k != "" && r[k] != ""
  {
    if list.Some? then IconsFrom(list.value).0 else map[]
  }

  /** The image of the last entry of `entries` that names symbol `k` with a
      non-empty image. */
  function LastIcon(entries: seq<IconEntry>, k: string): (w: Option<string>)
    ensures w.Some? <==> exists i :: 0 <= i < |entries| && Names(entries[i], k)
    ensures w.Some? ==> exists i :: 0 <= i < |entries| && Names(entries[i], k) && entries[i].image.s == w.value &&
                                    forall j :: i < j < |entries| ==> !Names(entries[j], k)
    decreases |entries|
  {
    if entries == [] then None
    else if Names(entries[|entries| - 1], k) then Some(entries[|entries| - 1].image.s)
    else
      var w := LastIcon(entries[..|entries| - 1], k);
      assert forall i :: 0 <= i < |entries| - 1 ==> entries[..|entries| - 1][i] == entries[i];
      w
  }

  /** The entry is read into the table under symbol `k`. */
  predicate Names(e: IconEntry, k: string) {
    e.Icon? && Truthy(e.symbol) && Truthy(e.image) && e.symbol.s == k
  }

  /** With no `null` element, a symbol is in the table exactly when some entry
      names it, and a later entry for the same symbol overwrites an earlier one. */
  lemma {:induction false} IconsLastWins(entries: seq<IconEntry>, k: string)
    requires NullIcon !in entries
    ensures k in MenuIcons(Some(entries)) <==> LastIcon(entries, k).Some?
    ensures k in MenuIcons(Some(entries)) ==> MenuIcons(Some(entries))[k] == LastIcon(entries, k).value
    decreases |entries|
  {
    if entries != [] {
      var front := entries[..|entries| - 1];
      assert NullIcon !in front by {
        assert forall e :: e in front ==> e in entries;
      }
      IconsLastWins(front, k);
    }
  }

  /** A `null` element ends the list: nothing after it is read. */
  lemma {:induction false} NullIconEndsList(a: seq<IconEntry>, b: seq<IconEntry>)
    ensures MenuIcons(Some(a + [NullIcon] + b)) == MenuIcons(Some(a))
    decreases |b|
  {
    if b == [] {
      assert a + [NullIcon] + b == a + [NullIcon];
      assert (a + [NullIcon])[..|a + [NullIcon]| - 1] == a;
    } else {
      var b' := b[..|b| - 1];
      var s := a + [NullIcon] + b;
      assert s[..|s| - 1] == a + [NullIcon] + b';
      NullIconEndsList(a, b');
      assert NullIcon in a + [NullIcon] + b' by {
        assert (a + [NullIcon] + b')[|a|] == NullIcon;
      }
    }
  }

  /** One element of the image list: as for icons, text that does not decode
      is skipped and a `null` ends the list; otherwise `filename` and the four
      numbers, where `None` stands for a value `Number` turns into NaN. */
  datatype ImageEntry = UnparseableImage | NullImage
                      | Image(filename: Field, x: Option<int>, y: Option<int>, width: Option<int>, height: Option<int>)

  /** A decorative image, normalised. */
  datatype MenuImage = MenuImage(filename: string, x: int, y: int, width: int, height: int)

  /** `Number(v) || 0`. */
  function NumberOrZero(v: Option<int>): (n: int)
    ensures v.None? ==> n == 0
    ensures v.Some? ==> n == v.value
  {
    if v.Some? then v.value else 0
  }

  /** Whether an entry yields an image: a decoded object with a truthy `filename`. */
  predicate Yields(e: ImageEntry) {
    e.Image? && Truthy(e.filename)
  }

  /** The image an entry yields: its filename, and each number or 0. */
  function ImageOf(e: ImageEntry): MenuImage
    requires Yields(e)
  {
    MenuImage(e.filename.s, NumberOrZero(e.x), NumberOrZero(e.y), NumberOrZero(e.width), NumberOrZero(e.height))
  }

  /** The image list built from `entries`, and whether a `null` ended it. */
  function ImagesFrom(entries: seq<ImageEntry>): (r: (seq<MenuImage>, bool))
    ensures |r.0| <= |entries|
    ensures forall i :: 0 <= i < |r.0| ==> r.0[i].filename != ""
    ensures forall m :: m in r.0 ==> exists e :: e in entries && Yields(e) && m == ImageOf(e)
    ensures r.1 <==> NullImage in entries
    decreases |entries|
  {
    if entries == [] then ([], false)
    else
      var front := entries[..|entries| - 1];
      var last := entries[|entries| - 1];
      assert forall e :: e in entries <==> e in front || e == last;
      var (images, stopped) := ImagesFrom(front);
      if stopped then (images, true)
      else match last
        case UnparseableImage => (images, false)
        case NullImage => (images, true)
        case Image(filename, x, y, width, height) =>
          if Truthy(filename) then (images + [ImageOf(last)], false) else (images, false)
  }

  /** `cfg.menuImages`: `None` stands for a parameter that is not JSON or not an array. */
  function MenuImages(list: Option<seq<ImageEntry>>): (r: seq<MenuImage>)
    ensures list.None? ==> r == []
    ensures list.Some? ==> |r| <= |list.value|
    ensures forall i :: 0 <= i < |r| ==> r[i].filename != ""
    ensures list.Some? ==> forall m :: m in r ==> exists e :: e in list.value && Yields(e) && m == ImageOf(e)
  {
    if list.Some? then ImagesFrom(list.value).0 else []
  }

  /** A list of one entry: an entry with a filename yields its image, where a
      number that is missing or not a number reads as 0; any other entry
      yields nothing. */
  lemma SingleImage(e: ImageEntry)
    ensures MenuImages(Some([e])) == if Yields(e) then [ImageOf(e)] else []
    ensures Yields(e) ==> MenuImages(Some([e]))[0].filename == e.filename.s
    ensures Yields(e) && e.x.None? ==> MenuImages(Some([e]))[0].x == 0
    ensures Yields(e) && e.y.None? ==> MenuImages(Some([e]))[0].y == 0
    ensures Yields(e) && e.width.None? ==> MenuImages(Some([e]))[0].width == 0
    ensures Yields(e) && e.height.None? ==> MenuImages(Some([e]))[0].height == 0
  {
    assert [e][..0] == [];
  }

  /** The images read so far are never taken back by later entries. */
  lemma {:induction false} ImagesPrefix(a: seq<ImageEntry>, b: seq<ImageEntry>)
    ensures ImagesFrom(a).0 <= ImagesFrom(a + b).0
    ensures ImagesFrom(a).1 ==> ImagesFrom(a + b) == ImagesFrom(a)
    decreases |b|
  {
    if b == [] {
      assert a + b == a;
    } else {
      var b' := b[..|b| - 1];
      assert (a + b)[..|a + b| - 1] == a + b';
      ImagesPrefix(a, b');
    }
  }

  /** Every entry with a filename that comes before any `null` yields its
      image, right after the images of the entries before it. */
  lemma ImageEntryKept(a: seq<ImageEntry>, e: ImageEntry, b: seq<ImageEntry>)
    requires NullImage !in a && Yields(e)
    ensures |MenuImages(Some(a))| < |MenuImages(Some(a + [e] + b))|
    ensures MenuImages(Some(a + [e] + b))[|MenuImages(Some(a))|] == ImageOf(e)
  {
    assert (a + [e])[..|a + [e]| - 1] == a;
    assert ImagesFrom(a + [e]).0 == ImagesFrom(a).0 + [ImageOf(e)];
    ImagesPrefix(a + [e], b);
  }

  /** Images keep the order of their entries: without a `null`, the images of
      two lists one after the other are the two lists of images in turn. */
  lemma {:induction false} ImagesConcat(a: seq<ImageEntry>, b: seq<ImageEntry>)
    requires NullImage !in a
    ensures MenuImages(Some(a + b)) == MenuImages(Some(a)) + MenuImages(Some(b))
    decreases |b|
  {
    if b == [] {
      assert a + b == a;
    } else {
      var b' := b[..|b| - 1];
      assert (a + b)[..|a + b| - 1] == a + b';
      ImagesConcat(a, b');
      assert NullImage in a + b' <==> NullImage in b';
    }
  }
}
