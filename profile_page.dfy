/**
 * The profile page's logic: the theme-gradient lookup, the display name and
 * its initials, and the editable profile record with its reset, save and
 * load rules. Browser storage is a map from keys to what the JSON parser
 * makes of the stored text.
 */
module ProfilePage {
  import opened Options
  import opened Text

  // ---------------------------------------------------------------------------
  // Entities
  // ---------------------------------------------------------------------------

  /** The signed-in user's identity fields; an empty text stands for a missing field (or a missing user). */
  datatype Identity = Identity(givenName: string, familyName: string, name: string, email: string, phoneNumber: string)

  /** The editable profile record. */
  datatype ProfileForm = ProfileForm(name: string, email: string, phone: string, bio: string, location: string)

  /** The record the save handler stores: the profile plus the chosen avatar and theme. */
  datatype SavedProfile = SavedProfile(
    name: string, email: string, phone: string, bio: string, location: string,
    profileImage: string, themeColor: string)

  /** The stored text under a key, as the JSON parser reads it. */
  datatype Stored = Saved(record: SavedProfile) | Unparseable

  datatype ThemeColor = ThemeColor(colorName: string, value: string, gradient: string)

  const ProfileKey := "user_profile_data"
  const DefaultTheme := "purple"
  const DefaultGradient := "from-purple-500 to-pink-500"
  const DefaultName := "User"

  const ThemeColors: seq<ThemeColor> := [
    ThemeColor("Purple", "purple", "from-purple-500 to-pink-500"),
    ThemeColor("Blue", "blue", "from-blue-500 to-cyan-500"),
    ThemeColor("Green", "green", "from-green-500 to-emerald-500"),
    ThemeColor("Orange", "orange", "from-orange-500 to-red-500"),
    ThemeColor("Indigo", "indigo", "from-indigo-500 to-purple-500"),
    ThemeColor("Pink", "pink", "from-pink-500 to-rose-500")
  ]

  // ---------------------------------------------------------------------------
  // Theme gradient
  // ---------------------------------------------------------------------------

  /** `table.find(t => t.value === color)`, as an index. */
  function FindTheme(table: seq<ThemeColor>, color: string): (r: Option<nat>)
    ensures r.Some? ==> r.value < |table| && table[r.value].value == color
    ensures r.Some? ==> forall j :: 0 <= j < r.value ==> table[j].value != color
    ensures r.None? ==> forall j :: 0 <= j < |table| ==> table[j].value != color
  {
    if table == [] then None
    else if table[0].value == color then Some(0)
    else
      match FindTheme(table[1..], color)
      case None => None
      case Some(i) => Some(i + 1)
  }

  function ThemeGradient(color: string): string
  {
    match FindTheme(ThemeColors, color)
    case Some(i) => ThemeColors[i].gradient
    case None => DefaultGradient
  }

  /** The gradient of the first table entry whose value is the colour, or the purple default when none is. */
  lemma ThemeGradientIsFirstMatch(color: string)
    ensures (exists i :: 0 <= i < |ThemeColors| && ThemeColors[i].value == color) ==>
      (exists i :: 0 <= i < |ThemeColors| && ThemeColors[i].value == color
         && ThemeGradient(color) == ThemeColors[i].gradient
         && (forall j :: 0 <= j < i ==> ThemeColors[j].value != color))
    ensures (forall i :: 0 <= i < |ThemeColors| ==> ThemeColors[i].value != color)
            ==> ThemeGradient(color) == DefaultGradient
  {
    match FindTheme(ThemeColors, color)
    case Some(i) =>
    case None =>
  }

  /** An unknown colour looks exactly like the default purple theme. */
  lemma UnknownColorLooksPurple(color: string)
    requires forall i :: 0 <= i < |ThemeColors| ==> ThemeColors[i].value != color
    ensures ThemeGradient(color) == ThemeGradient(DefaultTheme) == "from-purple-500 to-pink-500"
  {
    ThemeGradientIsFirstMatch(color);
    ThemeGradientIsFirstMatch(DefaultTheme);
    assert ThemeColors[0].value == DefaultTheme;
  }

  // ---------------------------------------------------------------------------
  // Display name and initials
  // ---------------------------------------------------------------------------

  /** The first of: "given family", given name, name, the e-mail before its '@', "User". */
  function DisplayName(u: Identity): string
  {
    if u.givenName != "" && u.familyName != "" then u.givenName + " " + u.familyName
    else if u.givenName != "" then u.givenName
    else if u.name != "" then u.name
    else if u.email != "" then BeforeFirst(u.email, '@')
    else DefaultName
  }

  /**
   * When only an e-mail address is known, the display name is the part before
   * its first '@': a prefix of the address without '@' that stops at an '@'.
   */
  lemma DisplayNameFromEmail(u: Identity)
    requires u.givenName == "" && u.name == "" && u.email != ""
    ensures var d := DisplayName(u);
      && '@' !in d
      && |d| <= |u.email| && d == u.email[..|d|]
      && (|d| < |u.email| ==> u.email[|d|] == '@')
  {
    BeforeFirstIsPrefix(u.email, '@');
  }

  /** The display name is empty exactly when it comes from an e-mail address that starts with '@'. */
  lemma DisplayNameEmptyIff(u: Identity)
    ensures DisplayName(u) == "" <==> (u.givenName == "" && u.name == "" && u.email != "" && u.email[0] == '@')
  {
    if u.givenName == "" && u.name == "" && u.email != "" {
      BeforeFirstIsPrefix(u.email, '@');
      if u.email[0] == '@' {
        assert u.email == [] + u.email;
        assert Split(u.email, '@') == [[]] + Split(u.email[1..], '@');
      }
    }
  }

  /** `words.map(w => w.charAt(0)).join('')`: the first character of every non-empty word. */
  function FirstChars(words: seq<string>): (r: string)
    ensures |r| <= |words|
    ensures (forall k :: 0 <= k < |words| ==> words[k] != []) ==>
      |r| == |words| && forall k :: 0 <= k < |words| ==> r[k] == words[k][0]
  {
    if words == [] then []
    else
      var rest := FirstChars(words[1..]);
      assert forall k :: 1 <= k < |words| ==> words[k] == words[1..][k - 1];
      (if words[0] == [] then [] else [words[0][0]]) + rest
  }

  /** `name.split(' ').map(w => w.charAt(0)).join('').toUpperCase().slice(0, 2)` */
  function Initials(name: string): (r: string)
    ensures |r| <= 2
    ensures forall i :: 0 <= i < |r| ==> !IsLower(r[i])
  {
    var all := Upper(FirstChars(Split(name, ' ')));
    if |all| <= 2 then all else all[..2]
  }

  function UserInitials(u: Identity): string
  {
    Initials(DisplayName(u))
  }

  /** The initials of one word are its upper-cased first character. */
  lemma InitialsOfOneWord(w: string)
    requires w != [] && ' ' !in w
    ensures Initials(w) == [UpperChar(w[0])]
  {
    SplitWord(w, ' ');
  }

  /** The initials of two words are their upper-cased first characters, in order. */
  lemma InitialsOfTwoWords(a: string, b: string)
    requires a != [] && ' ' !in a && b != [] && ' ' !in b
    ensures Initials(a + " " + b) == [UpperChar(a[0]), UpperChar(b[0])]
  {
    SplitJoin([a, b], ' ');
    assert Join([a, b], ' ') == a + " " + b;
    assert [a, b][1..] == [b];
    assert FirstChars([a, b]) == [a[0], b[0]];
    assert Upper([a[0], b[0]]) == [UpperChar(a[0]), UpperChar(b[0])];
  }

  /** A word in front adds its first character in front. */
  lemma FirstCharsCons(w: string, ws: seq<string>)
    requires w != []
    ensures FirstChars([w] + ws) == [w[0]] + FirstChars(ws)
  {
    assert ([w] + ws)[1..] == ws;
  }

  /** The initials of three or more words come from the first two only. */
  lemma InitialsIgnoreLaterWords(a: string, b: string, rest: string)
    requires a != [] && ' ' !in a && b != [] && ' ' !in b
    ensures Initials(a + " " + b + " " + rest) == [UpperChar(a[0]), UpperChar(b[0])]
  {
    var ws := Split(rest, ' ');
    SplitAfterWord(a, ' ', b + " " + rest);
    SplitAfterWord(b, ' ', rest);
    assert a + " " + b + " " + rest == a + [' '] + (b + [' '] + rest);
    var words := Split(a + " " + b + " " + rest, ' ');
    assert words == [a] + ([b] + ws);
    FirstCharsCons(b, ws);
    FirstCharsCons(a, [b] + ws);
    var all := Upper(FirstChars(words));
    assert FirstChars(words) == [a[0], b[0]] + FirstChars(ws);
    assert all[..2] == [UpperChar(a[0]), UpperChar(b[0])];
  }

  /** A user with a one-word given and family name shows the first letters of both. */
  lemma UserInitialsOfFullName(u: Identity)
    requires u.givenName != [] && ' ' !in u.givenName
    requires u.familyName != [] && ' ' !in u.familyName
    ensures UserInitials(u) == [UpperChar(u.givenName[0]), UpperChar(u.familyName[0])]
  {
    InitialsOfTwoWords(u.givenName, u.familyName);
  }

  // ---------------------------------------------------------------------------
  // The profile record
  // ---------------------------------------------------------------------------

  /** The name the profile record starts from. */
  function FormName(u: Identity): string
  {
    if u.givenName != "" then Trim(u.givenName + " " + u.familyName) else DefaultName
  }

  /** The record on mount, and again after cancel: identity fields from the user, bio and location empty. */
  function InitialForm(u: Identity): ProfileForm
  {
    ProfileForm(FormName(u), u.email, u.phoneNumber, "", "")
  }

  /**
   * The record's name is "User" without a given name, the given name alone
   * without a family name, and "given family" with both (for names without
   * surrounding white space).
   */
  lemma FormNameCases(u: Identity)
    ensures u.givenName == "" ==> FormName(u) == DefaultName
    ensures u.givenName != "" && Trimmed(u.givenName) && u.familyName == ""
            ==> FormName(u) == u.givenName
    ensures u.givenName != "" && Trimmed(u.givenName) && u.familyName != "" && Trimmed(u.familyName)
            ==> FormName(u) == u.givenName + " " + u.familyName
  {
    if u.givenName != "" && Trimmed(u.givenName) {
      if u.familyName == "" {
        assert u.givenName + " " + u.familyName == u.givenName + [' '];
        TrimDropsTrailingSpace(u.givenName);
      } else if Trimmed(u.familyName) {
        var full := u.givenName + " " + u.familyName;
        assert full[0] == u.givenName[0] && full[|full| - 1] == u.familyName[|u.familyName| - 1];
        TrimOfTrimmed(full);
      }
    }
  }

  /** With a given name, the record's name is the name the page displays. */
  lemma FormNameIsDisplayName(u: Identity)
    requires u.givenName != "" && Trimmed(u.givenName) && Trimmed(u.familyName)
    ensures FormName(u) == DisplayName(u)
  {
    FormNameCases(u);
  }

  /** The record the save handler stores. */
  function SaveRecord(form: ProfileForm, avatar: string, theme: string): SavedProfile
  {
    SavedProfile(form.name, form.email, form.phone, form.bio, form.location, avatar, theme)
  }

  /** The load rule for the record: only bio and location come from storage. */
  function MergeSaved(prev: ProfileForm, saved: SavedProfile): (r: ProfileForm)
    ensures r.name == prev.name && r.email == prev.email && r.phone == prev.phone
    ensures r.bio == saved.bio && r.location == saved.location
  {
    prev.(bio := saved.bio, location := saved.location)
  }

  function LoadedTheme(saved: SavedProfile): (r: string)
    ensures r != ""
    ensures saved.themeColor != "" ==> r == saved.themeColor
  {
    if saved.themeColor == "" then DefaultTheme else saved.themeColor
  }

  /** Loading what was saved gives back the record and the avatar, and the theme unless it was empty. */
  lemma SaveThenLoad(form: ProfileForm, avatar: string, theme: string)
    ensures MergeSaved(form, SaveRecord(form, avatar, theme)) == form
    ensures SaveRecord(form, avatar, theme).profileImage == avatar
    ensures LoadedTheme(SaveRecord(form, avatar, theme)) == if theme == "" then DefaultTheme else theme
  {
  }

  /** The theme default on load and the gradient default agree: a stored theme keeps its look after loading. */
  lemma LoadedThemeKeepsGradient(saved: SavedProfile)
    ensures ThemeGradient(LoadedTheme(saved)) == ThemeGradient(saved.themeColor)
  {
    if saved.themeColor == "" {
      assert forall i :: 0 <= i < |ThemeColors| ==> ThemeColors[i].value != "";
      UnknownColorLooksPurple("");
    }
  }

  // ---------------------------------------------------------------------------
  // The page's state
  // ---------------------------------------------------------------------------

  class ProfileEditor {
    const user: Identity
    var isEditing: bool
    var showImageUpload: bool
    var localUserData: ProfileForm
    var selectedAvatar: string
    var selectedThemeColor: string
    var storage: map<string, Stored>

    constructor (user: Identity, storage: map<string, Stored>)
      ensures this.user == user && this.storage == storage
      ensures localUserData == InitialForm(user)
      ensures selectedAvatar == "" && selectedThemeColor == DefaultTheme
      ensures !isEditing && !showImageUpload
    {
      this.user := user;
      this.storage := storage;
      isEditing, showImageUpload := false, false;
      localUserData := InitialForm(user);
      selectedAvatar, selectedThemeColor := "", DefaultTheme;
    }

    /** Stores the record with the avatar and theme, and leaves edit mode. */
    method HandleSave()
      modifies this
      ensures storage == old(storage)[ProfileKey := Saved(SaveRecord(localUserData, selectedAvatar, selectedThemeColor))]
      ensures !isEditing && !showImageUpload
      ensures unchanged(this`localUserData, this`selectedAvatar, this`selectedThemeColor)
    {
      storage := storage[ProfileKey := Saved(SaveRecord(localUserData, selectedAvatar, selectedThemeColor))];
      isEditing := false;
      showImageUpload := false;
    }

    /** Restores the record from the user and leaves edit mode; avatar, theme and storage are kept. */
    method HandleCancel()
      modifies this
      ensures localUserData == InitialForm(user)
      ensures !isEditing && !showImageUpload
      ensures unchanged(this`selectedAvatar, this`selectedThemeColor, this`storage)
    {
      localUserData := InitialForm(user);
      isEditing := false;
      showImageUpload := false;
    }

    /**
     * The load effect: a stored record replaces bio, location, avatar and
     * theme; nothing stored, or text that does not parse, changes nothing.
     */
    method LoadSaved()
      modifies this
      ensures ProfileKey in old(storage) && old(storage)[ProfileKey].Saved? ==>
        var saved := old(storage)[ProfileKey].record;
        && localUserData == MergeSaved(old(localUserData), saved)
        && selectedAvatar == saved.profileImage
        && selectedThemeColor == LoadedTheme(saved)
      ensures !(ProfileKey in old(storage) && old(storage)[ProfileKey].Saved?) ==>
        unchanged(this`localUserData, this`selectedAvatar, this`selectedThemeColor)
      ensures unchanged(this`isEditing, this`showImageUpload, this`storage)
    {
      if ProfileKey in storage {
        match storage[ProfileKey]
        case Saved(saved) =>
          localUserData := localUserData.(bio := saved.bio, location := saved.location);
          selectedAvatar := saved.profileImage;
          selectedThemeColor := if saved.themeColor == "" then DefaultTheme else saved.themeColor;
        case Unparseable =>
      }
    }
  }
}
