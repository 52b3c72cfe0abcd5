/** The profile page: the fetched profile turned into display values with fallbacks, and the
    avatar's initials. */
module ProfilePage {
  import opened Options
  import opened JsString
  import opened ProfileApi
  import ProfileApiProperties

  /** The fields of the GET response body the page reads; a missing field and a JSON null
      are both `None`. */
  datatype ProfileJson = ProfileJson(
    name: Option<string>,
    email: Option<string>,
    role: Option<string>,
    location: Option<string>,
    website: Option<string>,
    bio: Option<string>)

  /** The page's `ProfileData`: every field is a string. */
  datatype ProfileData = ProfileData(name: string, email: string, role: string, location: string,
                                     website: string, bio: string)

  const NameFallback := "User"
  const RoleFallback := "Designer"
  const LocationFallback := "Location not set"
  const WebsiteFallback := "website.com"
  const BioFallback := "No bio yet. Edit your profile to add one!"

  /** The JSON body GET sends for a row. */
  function RecordJson(rec: UserRecord): ProfileJson {
    ProfileJson(Some(rec.name), Some(rec.email), rec.role, rec.location, rec.website, rec.bio)
  }

  /** The fallback mapping applied to the response: every displayed field except the email is
      non-empty; a present non-empty value is shown unchanged, a missing or empty one is
      replaced by that field's fixed placeholder, and a missing email shows as empty. */
  function ToProfileData(d: ProfileJson): (p: ProfileData)
    ensures p.name != "" && p.role != "" && p.location != "" && p.website != "" && p.bio != ""
    ensures p.name == if d.name.Some? && d.name.value != "" then d.name.value else NameFallback
    ensures p.email == if d.email.Some? then d.email.value else ""
    ensures p.role == if d.role.Some? && d.role.value != "" then d.role.value else RoleFallback
    ensures p.location == if d.location.Some? && d.location.value != "" then d.location.value else LocationFallback
    ensures p.website == if d.website.Some? && d.website.value != "" then d.website.value else WebsiteFallback
    ensures p.bio == if d.bio.Some? && d.bio.value != "" then d.bio.value else BioFallback
  {
    ProfileData(
      OrElse(d.name, NameFallback),
      OrElse(d.email, ""),
      OrElse(d.role, RoleFallback),
      OrElse(d.location, LocationFallback),
      OrElse(d.website, WebsiteFallback),
      OrElse(d.bio, BioFallback))
  }

  /** After a successful PATCH that set a name, the page shows that name trimmed; after one
      that cleared the website, it shows the website placeholder. */
  lemma ShownAfterUpdate(id: UserId, m: map<string, Json>, store: Store, now: int, isUrl: string -> bool)
    requires Patch(SignedIn(id), Parsed(JObject(m)), store, now, isUrl).response.Ok?
    ensures
      var after := Patch(SignedIn(id), Parsed(JObject(m)), store, now, isUrl).store;
      var shown := ToProfileData(RecordJson(Get(SignedIn(id), after).record));
      && ("name" in m ==> shown.name == Trim(m["name"].s))
      && ("website" in m && IsBlank(m["website"].s) ==> shown.website == WebsiteFallback)
  {
    ProfileApiProperties.PatchSucceedsExactly(id, m, store, now, isUrl);
    ProfileApiProperties.GetAfterPatch(SignedIn(id), Parsed(JObject(m)), store, now, isUrl);
    ProfileApiProperties.AllowedKeysListed(m, isUrl);
    var rec := Patch(SignedIn(id), Parsed(JObject(m)), store, now, isUrl).response.record;
    assert ProfileApiProperties.Column(rec, "name") ==
      if "name" in m then ProfileApiProperties.Normalised("name", m["name"].s)
      else ProfileApiProperties.Column(store.rows[id], "name");
    assert ProfileApiProperties.Column(rec, "website") ==
      if "website" in m then ProfileApiProperties.Normalised("website", m["website"].s)
      else ProfileApiProperties.Column(store.rows[id], "website");
    if "name" in m {
      TrimIdempotent(m["name"].s);
    }
  }

  /** `s.split(sep)`: the pieces between separators, empty pieces included, and always at
      least one. Joining them back with the separator gives `s`. */
  function Split(s: string, sep: char): (parts: seq<string>)
    ensures |parts| >= 1
    ensures forall i :: 0 <= i < |parts| ==> sep !in parts[i]
    ensures Join(parts, sep) == s
    decreases |s|
  {
    if |s| == 0 then [""]
    else
      var rest := Split(s[1..], sep);
      if s[0] == sep then
        assert ([""] + rest)[1..] == rest;
        [""] + rest
      else
        var parts := [[s[0]] + rest[0]] + rest[1..];
        assert parts[1..] == rest[1..];
        assert s == [s[0]] + s[1..];
        parts
  }

  /** `parts.join(sep)`. */
  function Join(parts: seq<string>, sep: char): string
    decreases |parts|
  {
    if |parts| == 0 then ""
    else if |parts| == 1 then parts[0]
    else parts[0] + [sep] + Join(parts[1..], sep)
  }

  /** `n[0]` of a non-empty part: its first UTF-16 code unit, which for a character above
      U+FFFF is a lone high surrogate. */
  function FirstUnit(part: string): CodeUnit
    requires |part| > 0
  {
    Utf16(part[0])[0]
  }

  /** `parts.map(n => n[0]).join("")`: an empty part has no first code unit and, being
      `undefined`, joins as nothing. */
  function FirstChars(parts: seq<string>): seq<CodeUnit>
    decreases |parts|
  {
    if |parts| == 0 then []
    else (if |parts[0]| > 0 then [FirstUnit(parts[0])] else []) + FirstChars(parts[1..])
  }

  /** Reference definition: the first code unit of every word, a word being a maximal run of
      non-space characters. `atStart` says whether the previous character was a space (or
      there was none). */
  function WordStarts(s: string, atStart: bool): (r: seq<CodeUnit>)
    ensures forall i :: 0 <= i < |r| ==> r[i] != ' ' as int as CodeUnit
    ensures |r| <= |s|
    decreases |s|
  {
    if |s| == 0 then []
    else if s[0] == ' ' then WordStarts(s[1..], true)
    else (if atStart then [FirstUnit(s)] else []) + WordStarts(s[1..], false)
  }

  /** Splitting at spaces and taking the first code unit of every part gives exactly the
      first code units of the words, in order: runs of spaces contribute nothing. */
  lemma {:induction false} InitialsAreWordStarts(s: string)
    ensures FirstChars(Split(s, ' ')) == WordStarts(s, true)
    ensures FirstChars(Split(s, ' ')[1..]) == WordStarts(s, false)
    decreases |s|
  {
    if |s| > 0 {
      InitialsAreWordStarts(s[1..]);
      var rest := Split(s[1..], ' ');
      if s[0] == ' ' {
        assert Split(s, ' ') == [""] + rest;
        assert ([""] + rest)[1..] == rest;
      } else {
        var parts := [[s[0]] + rest[0]] + rest[1..];
        assert Split(s, ' ') == parts;
        assert parts[1..] == rest[1..];
      }
    }
  }

  /** The avatar initials, `name.split(" ").map(n => n[0]).join("")`: the first code unit of
      every space-separated word of the name, in order, so never a space and never more
      units than the name has characters. */
  function Initials(name: string): (r: seq<CodeUnit>)
    ensures r == WordStarts(name, true)
    ensures forall i :: 0 <= i < |r| ==> r[i] != ' ' as int as CodeUnit
    ensures |r| <= |name|
  {
    InitialsAreWordStarts(name);
    FirstChars(Split(name, ' '))
  }

  /** A name starting with a character above U+FFFF gets a lone high surrogate as its
      initial: for "𝒜lice" (U+1D49C) the initial is the code unit 0xD835. */
  lemma AstralInitialIsHighSurrogate()
    ensures Initials("\U{1D49C}lice") == [0xD835]
  {
  }
}
