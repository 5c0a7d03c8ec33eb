/**
 * The name handling of the hotel photo store: which uploads are accepted,
 * which extension a stored photo gets, how a requested photo name is reduced
 * to a bare file name before it is resolved against the upload directory, and
 * the URL a stored name is served under. `URLDecoder.decode` is a parameter.
 */
module PhotoStorage {
  import opened Options
  import opened Text

  /** `URLDecoder.decode(_, UTF_8)`. */
  type Decoder = string -> string

  /** The limits the service is built with: the size cap and the two allow-lists, already parsed. */
  datatype PhotoConfig = PhotoConfig(maxPhotoSizeBytes: int, allowedExtensions: set<string>,
                                     allowedMimeTypes: set<string>)

  /** What `validateFile` does with an upload: nothing, or one of its two exceptions. */
  datatype Verdict = Accepted | TooLarge | NotAnImage

  const PhotoUrlPrefix: string := "/api/hotels/photos/"

  const DefaultExtension: string := ".jpg"

  // ---------------------------------------------------------------- extensions

  predicate IsLowerAlnum(c: char)
  {
    'a' <= c <= 'z' || '0' <= c <= '9'
  }

  /** The whole string matches `\.[a-z0-9]{2,5}`. */
  predicate IsExtension(e: string)
  {
    3 <= |e| <= 6 && e[0] == '.' && forall i :: 1 <= i < |e| ==> IsLowerAlnum(e[i])
  }

  /** The name has a dot with something after the last one. */
  predicate HasExtension(name: string)
  {
    var dot := LastIndexOf(name, '.');
    dot >= 0 && dot != |name| - 1
  }

  /**
   * `extractExtension`: the lower-cased text from the last dot on when it is
   * a dot and two to five lower-case letters or digits, `.jpg` otherwise.
   */
  function ExtractExtension(name: string): (r: string)
    ensures IsExtension(r)
    ensures r != DefaultExtension ==> HasExtension(name) && r == ToLower(name[LastIndexOf(name, '.')..])
  {
    var dot := LastIndexOf(name, '.');
    assert DefaultExtension == ['.', 'j', 'p', 'g'];
    if dot < 0 || dot == |name| - 1 then DefaultExtension
    else
      var extension := ToLower(name[dot..]);
      if !IsExtension(extension) then DefaultExtension else extension
  }

  /** `extractExtensionWithoutDot`: the lower-cased text after the last dot, or empty. */
  function ExtractExtensionWithoutDot(name: string): (r: string)
    ensures !HasExtension(name) ==> r == ""
    ensures HasExtension(name) ==> r != "" && r == ToLower(name[LastIndexOf(name, '.') + 1..])
    ensures '.' !in r
  {
    var dot := LastIndexOf(name, '.');
    if dot < 0 || dot == |name| - 1 then ""
    else
      var r := ToLower(name[dot + 1..]);
      assert forall i :: 0 <= i < |r| ==> r[i] == ToLowerChar(name[dot + 1 + i]) && name[dot + 1 + i] != '.';
      r
  }

  /**
   * The two extension readers agree: the stored extension is the checked one
   * with its dot when that is two to five lower-case letters or digits, and
   * `.jpg` otherwise.
   */
  lemma ExtensionReadersAgree(name: string)
    ensures var bare := ExtractExtensionWithoutDot(name);
      ExtractExtension(name) == if IsExtension("." + bare) then "." + bare else DefaultExtension
  {
    var dot := LastIndexOf(name, '.');
    var bare := ExtractExtensionWithoutDot(name);
    if dot >= 0 && dot != |name| - 1 {
      var full := ToLower(name[dot..]);
      assert full == "." + bare by {
        assert name[dot..] == [name[dot]] + name[dot + 1..];
      }
    } else {
      assert bare == "";
      assert !IsExtension("." + bare);
    }
  }

  // ---------------------------------------------------------------- allow-lists

  /** The items of a comma-separated list, trimmed and lower-cased, empties dropped. */
  function ParseCsvToLowerSet(csv: Option<string>): (r: set<string>)
    ensures IsBlank(csv) ==> r == {}
    ensures forall x :: x in r ==> x != "" && ToLower(x) == x && Trim(x) == x
  {
    if IsBlank(csv) then {}
    else
      var parts := Split(csv.value, ',');
      var r := set k | 0 <= k < |parts| && ToLower(Trim(parts[k])) != "" :: ToLower(Trim(parts[k]));
      forall x | x in r
        ensures x != "" && ToLower(x) == x && Trim(x) == x
      {
        var k :| 0 <= k < |parts| && ToLower(Trim(parts[k])) == x && x != "";
        CleanItem(parts[k]);
      }
      r
  }

  /** A trimmed, lower-cased piece is its own trim and its own lower case. */
  lemma CleanItem(piece: string)
    ensures var x := ToLower(Trim(piece)); ToLower(x) == x && Trim(x) == x
  {
    var t := Trim(piece);
    var x := ToLower(t);
    ToLowerIdempotent(t);
    if t == [] {
      assert x == [];
    } else {
      ToLowerKeepsTrimmed(t);
    }
    TrimKeepsTrimmed(x);
  }

  /**
   * Every non-empty item of a list that is not blank is in the set, and
   * everything in the set is such an item.
   */
  lemma ParseCsvToLowerSetHoldsExactlyTheItems(csv: string, x: string)
    requires !IsBlank(Some(csv))
    ensures x in ParseCsvToLowerSet(Some(csv)) <==>
              x != "" && exists k :: 0 <= k < |Split(csv, ',')| && ToLower(Trim(Split(csv, ',')[k])) == x
  {
  }

  /** `validateFile`: too large first, then the extension or the lower-cased declared type must be allowed. */
  function ValidateFile(config: PhotoConfig, size: int, originalFilename: Option<string>, contentType: Option<string>)
    : (r: Verdict)
    ensures r == TooLarge <==> size > config.maxPhotoSizeBytes
    ensures r == Accepted <==> size <= config.maxPhotoSizeBytes
                               && (ExtractExtensionWithoutDot(originalFilename.GetOr("")) in config.allowedExtensions
                                   || ToLower(contentType.GetOr("")) in config.allowedMimeTypes)
  {
    if size > config.maxPhotoSizeBytes then TooLarge
    else
      var extension := ExtractExtensionWithoutDot(originalFilename.GetOr(""));
      var mimeType := ToLower(contentType.GetOr(""));
      if !(extension in config.allowedExtensions || mimeType in config.allowedMimeTypes) then NotAnImage
      else Accepted
  }

  /**
   * The two lists are alternatives: an upload whose name ends in `.html` is
   * accepted when it declares an allowed image type, and is then stored
   * under the extension `.html`.
   */
  lemma DeclaredTypeAdmitsAnyExtension(config: PhotoConfig, size: int)
    requires 0 <= size <= config.maxPhotoSizeBytes && "image/png" in config.allowedMimeTypes
    ensures ValidateFile(config, size, Some("page.html"), Some("image/png")) == Accepted
    ensures ExtractExtension("page.html") == ".html"
  {
    var name := "page.html";
    assert LastIndexOf(name, '.') == 4 by {
      assert name[4] == '.' && '.' !in name[5..];
    }
    assert ToLower("image/png") == "image/png";
    assert ToLower(name[4..]) == ".html";
  }

  // ---------------------------------------------------------------- names

  /** The text after the last `/` once every `\` is a `/`. */
  function LastSegment(s: string): (r: string)
    ensures '/' !in r && '\\' !in r
  {
    var slashes := Replace(s, '\\', '/');
    assert '\\' !in slashes;
    var lastSlash := LastIndexOf(slashes, '/');
    if lastSlash >= 0 then slashes[lastSlash + 1..] else slashes
  }

  /**
   * `normalizeFilename`: blank input is refused; otherwise the trimmed text
   * is decoded and cut to its last path segment, which is refused when it is
   * blank or contains `..`. A name it returns has no separator and no parent
   * reference, so it stays inside the directory it is resolved against.
   */
  function NormalizeFilename(value: Option<string>, decode: Decoder): (r: Option<string>)
    ensures IsBlank(value) ==> r.None?
    ensures r.Some? ==> '/' !in r.value && '\\' !in r.value && !Contains(r.value, "..") && !IsBlankString(r.value)
    ensures r.Some? ==> r.value == LastSegment(decode(Trim(value.value)))
    ensures (!IsBlank(value) && !IsBlankString(LastSegment(decode(Trim(value.value))))
             && !Contains(LastSegment(decode(Trim(value.value))), "..")) ==> r.Some?
  {
    if IsBlank(value) then None
    else
      var filenameOnly := LastSegment(decode(Trim(value.value)));
      if IsBlankString(filenameOnly) || Contains(filenameOnly, "..") then None else Some(filenameOnly)
  }

  /**
   * A name made only of separators above U+0020, such as the ideographic
   * space U+3000, survives `trim`, which drops only characters up to U+0020,
   * but is blank by `isBlank`, so it is refused.
   */
  lemma WideSpaceNameIsRefused(name: string, decode: Decoder)
    requires name != [] && forall i :: 0 <= i < |name| ==> IsWhitespace(name[i]) && !IsTrimmable(name[i])
    requires decode(name) == name
    ensures Trim(name) == name
    ensures NormalizeFilename(Some(name), decode).None?
  {
    TrimKeepsTrimmed(name);
    assert Replace(name, '\\', '/') == name;
    assert LastIndexOf(name, '/') == -1;
    assert LastSegment(name) == name;
  }

  /** `toPhotoUrl`: the public URL of a stored name, or empty when the name is refused. */
  function ToPhotoUrl(filename: Option<string>, decode: Decoder): (r: string)
    ensures r == "" <==> NormalizeFilename(filename, decode).None?
    ensures r != "" ==> r == PhotoUrlPrefix + NormalizeFilename(filename, decode).value
  {
    var safeFilename := NormalizeFilename(filename, decode);
    if safeFilename.None? then "" else PhotoUrlPrefix + safeFilename.value
  }

  /** A dot never follows a dot in the name. */
  predicate NoDoubleDot(s: string)
  {
    forall i :: 0 <= i < |s| - 1 ==> !(s[i] == '.' && s[i + 1] == '.')
  }

  lemma NoDoubleDotMeansNoParent(s: string)
    requires NoDoubleDot(s)
    ensures !Contains(s, "..")
  {
    forall i | 0 <= i <= |s| - 2
      ensures !OccursAt(s, "..", i)
    {
      assert s[i..i + 2][0] == s[i] && s[i..i + 2][1] == s[i + 1];
    }
  }

  /** The characters a generated name is made of: lower-case letters, digits, `-` and `.`. */
  predicate IsPlainChar(c: char)
  {
    IsLowerAlnum(c) || c == '-' || c == '.'
  }

  /** A plain name that decoding leaves alone is returned by `normalizeFilename` as it is. */
  lemma PlainNameSurvives(name: string, decode: Decoder)
    requires name != [] && name[0] != '.' && forall i :: 0 <= i < |name| ==> IsPlainChar(name[i])
    requires NoDoubleDot(name) && decode(name) == name
    ensures NormalizeFilename(Some(name), decode) == Some(name)
  {
    assert !IsTrimmable(name[0]) && !IsTrimmable(name[|name| - 1]);
    TrimKeepsTrimmed(name);
    assert Replace(name, '\\', '/') == name;
    assert LastIndexOf(name, '/') == -1;
    assert LastSegment(name) == name;
    assert !IsWhitespace(name[0]);
    NoDoubleDotMeansNoParent(name);
  }

  /** What `saveHotelPhotos` names a stored upload: the random UUID text followed by the extracted extension. */
  function StoredName(uuid: string, originalFilename: string): string
  {
    uuid + ExtractExtension(originalFilename)
  }

  /** The characters of `UUID.toString()`. */
  predicate IsUuidText(uuid: string)
  {
    uuid != [] && forall i :: 0 <= i < |uuid| ==> 'a' <= uuid[i] <= 'f' || '0' <= uuid[i] <= '9' || uuid[i] == '-'
  }

  /** UUID text followed by an extension is a plain name with no two dots in a row. */
  lemma UuidWithExtensionIsPlain(uuid: string, ext: string)
    requires IsUuidText(uuid) && IsExtension(ext)
    ensures var name := uuid + ext;
      && name != [] && name[0] != '.' && (forall i :: 0 <= i < |name| ==> IsPlainChar(name[i]))
      && NoDoubleDot(name)
  {
    var name := uuid + ext;
    assert forall i :: 0 <= i < |uuid| ==> name[i] == uuid[i];
    assert forall i :: |uuid| <= i < |name| ==> name[i] == ext[i - |uuid|];
    forall i | 0 <= i < |name| - 1
      ensures !(name[i] == '.' && name[i + 1] == '.')
    {
      if i < |uuid| {
        assert name[i] != '.';
      } else {
        assert name[i + 1] == ext[i + 1 - |uuid|];
      }
    }
  }

  /** `URLDecoder.decode` changes only `%` escapes and `+`: text holding neither comes back as it is. */
  ghost predicate KeepsUnescapedText(decode: Decoder)
  {
    forall t :: (forall i :: 0 <= i < |t| ==> t[i] != '%' && t[i] != '+') ==> decode(t) == t
  }

  /**
   * A name the store generated survives `normalizeFilename` unchanged, so the
   * URL built for it serves that very file: it holds neither `%` nor `+`,
   * which a URL decoder leaves alone.
   */
  lemma StoredNameIsServedBack(uuid: string, originalFilename: string, decode: Decoder)
    requires IsUuidText(uuid) && KeepsUnescapedText(decode)
    ensures NormalizeFilename(Some(StoredName(uuid, originalFilename)), decode) == Some(StoredName(uuid, originalFilename))
    ensures ToPhotoUrl(Some(StoredName(uuid, originalFilename)), decode) == PhotoUrlPrefix + StoredName(uuid, originalFilename)
  {
    var name := StoredName(uuid, originalFilename);
    UuidWithExtensionIsPlain(uuid, ExtractExtension(originalFilename));
    assert forall i :: 0 <= i < |name| ==> name[i] != '%' && name[i] != '+';
    assert decode(name) == name;
    PlainNameSurvives(name, decode);
  }
}
