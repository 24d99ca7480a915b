/** Person pictures: the public URL a stored ImageKit file id is shown under,
    and the three-way decision the person updates make about the picture. */
module Images {
  import opened Common

  const UrlPrefix: string := "https://ik.imagekit.io/bibliothek/PessoasImagens/"
  const UrlSuffix: string := ".png"

  /** `https://ik.imagekit.io/bibliothek/PessoasImagens/${id}.png` */
  function ImageUrl(id: string): (url: string)
    ensures |url| == |UrlPrefix| + |id| + |UrlSuffix|
    ensures url[..|UrlPrefix|] == UrlPrefix && url[|url| - |UrlSuffix|..] == UrlSuffix
  {
    UrlPrefix + id + UrlSuffix
  }

  /** The file id a shown URL names, when it has the shape above. */
  function ImageIdOf(url: string): (r: Option<string>)
  {
    if |url| >= |UrlPrefix| + |UrlSuffix| && url[..|UrlPrefix|] == UrlPrefix && url[|url| - |UrlSuffix|..] == UrlSuffix
    then Some(url[|UrlPrefix|..|url| - |UrlSuffix|])
    else None
  }

  /** The URL gives its file id back, so distinct files are shown under distinct URLs. */
  lemma ImageUrlRoundTrip(id: string)
    ensures ImageIdOf(ImageUrl(id)) == Some(id)
  {
    var url := ImageUrl(id);
    assert url[|UrlPrefix|..|url| - |UrlSuffix|] == id;
  }

  lemma ImageUrlInjective(a: string, b: string)
    ensures ImageUrl(a) == ImageUrl(b) ==> a == b
  {
    ImageUrlRoundTrip(a);
    ImageUrlRoundTrip(b);
  }

  /** Every URL of the right shape is the URL of the id it names. */
  lemma ImageIdOfSound(url: string)
    ensures ImageIdOf(url).Some? ==> ImageUrl(ImageIdOf(url).value) == url
  {
    if ImageIdOf(url).Some? {
      var id := ImageIdOf(url).value;
      assert url == url[..|UrlPrefix|] + id + url[|url| - |UrlSuffix|..];
    }
  }

  /** `imagem ? url(imagem) : null`: a stored id is truthy when non-empty. */
  function Shown(stored: Option<string>): (r: Option<string>)
    ensures r.Some? <==> stored.Some? && stored.value != []
    ensures r.Some? ==> r.value == ImageUrl(stored.value)
  {
    if stored.Some? && stored.value != [] then Some(ImageUrl(stored.value)) else None
  }

  /** A stored id the controllers treat as present. */
  predicate HasImage(stored: Option<string>) { stored.Some? && stored.value != [] }

  /** What an update does about the picture: a new file was sent, the old one
      was removed (`imageChanged == 2`, compared loosely), or it is kept. */
  datatype Decision = Sent | Removed | Kept

  function Decide(imageSent: bool, imageChanged: Option<Value>): (d: Decision)
    ensures d == Sent <==> imageSent
    ensures d == Removed <==> !imageSent && imageChanged.Some? && NumberOf(imageChanged.value) == Num(2)
  {
    if imageSent then Sent
    else if imageChanged.Some? && NumberOf(imageChanged.value) == Num(2) then Removed
    else Kept
  }

  /** The stored file, as a set: empty when the person has no picture. */
  function StoredSet(stored: Option<string>): set<string>
  {
    if HasImage(stored) then {stored.value} else {}
  }

  /** The ImageKit files after an update's decision: a sent or removed picture
      deletes the stored file, and a sent one adds the upload; no other file
      comes or goes. */
  function FilesAfter(images: set<string>, d: Decision, stored: Option<string>, uploaded: string): (r: set<string>)
    ensures d == Kept ==> r == images
    ensures d == Sent ==> uploaded in r
    ensures d != Kept && HasImage(stored) && stored.value != uploaded ==> stored.value !in r
    ensures forall f :: f in r && f !in images ==> d == Sent && f == uploaded
    ensures forall f :: f in images && !(d != Kept && HasImage(stored) && f == stored.value) ==> f in r
  {
    match d
    case Sent => images - StoredSet(stored) + {uploaded}
    case Removed => images - StoredSet(stored)
    case Kept => images
  }

  /** Whether a removal has a stored picture to clear with its own UPDATE before the main one. */
  predicate ClearsFirst(d: Decision, stored: Option<string>) { d == Removed && HasImage(stored) }

  /** `IMAGEM = COALESCE($3, IMAGEM)`: only a non-null parameter overwrites. */
  function Coalesce<T>(param: Option<T>, stored: Option<T>): (r: Option<T>)
    ensures param.Some? ==> r == param
    ensures param.None? ==> r == stored
  {
    if param.Some? then param else stored
  }

  /** The `$3` parameter of the person update: the new file id only when one was sent. */
  function ImageParam(d: Decision, uploaded: string): (p: Option<string>)
    ensures p.Some? <==> d == Sent
    ensures p.Some? ==> p.value == uploaded
  {
    if d == Sent then Some(uploaded) else None
  }

  /** The three branches of the decision under COALESCE: a sent file replaces
      the stored id, and otherwise the main update leaves the stored id alone. */
  lemma CoalesceDecision(d: Decision, uploaded: string, stored: Option<string>)
    ensures d == Sent ==> Coalesce(ImageParam(d, uploaded), stored) == Some(uploaded)
    ensures d != Sent ==> Coalesce(ImageParam(d, uploaded), stored) == stored
  {
  }
}
