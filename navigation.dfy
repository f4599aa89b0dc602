/**
 * The public site's navigation bar (src/components/Navigation.tsx): the
 * avatar initials, the name shown beside them, the dropdown toggle, and the
 * choice between the sign-in links and the user menu.
 */
module Navigation {
  import opened Wrappers
  import opened Strings
  import opened Lists
  import opened Auth

  /** A word of a split name that contributes an initial: `word[0]` of an empty word is `undefined`, which `join` drops. */
  function IsWord(): string -> bool {
    (w: string) => w != ""
  }

  /** `words.map(word => word[0]).join('')`. */
  function FirstChars(words: seq<string>): (r: string)
    ensures |r| == |Filter(words, IsWord())|
    ensures forall i :: 0 <= i < |r| ==> r[i] == Filter(words, IsWord())[i][0]
  {
    if words == [] then ""
    else
      var rest := FirstChars(words[1..]);
      assert Filter(words, IsWord()) == (if IsWord()(words[0]) then [words[0]] else []) + Filter(words[1..], IsWord());
      (if words[0] != "" then [words[0][0]] else "") + rest
  }

  /** The first characters of two word lists one after the other. */
  lemma {:induction false} FirstCharsAppend(a: seq<string>, b: seq<string>)
    ensures FirstChars(a + b) == FirstChars(a) + FirstChars(b)
  {
    if a != [] {
      assert (a + b)[1..] == a[1..] + b;
      FirstCharsAppend(a[1..], b);
    } else {
      assert a + b == b;
    }
  }

  /**
   * `getInitials`: the upper-cased first character of every non-empty
   * space-separated word, in order. The same function is defined in
   * src/components/DashboardNavbar.tsx:23-25.
   */
  function GetInitials(name: string): (r: string)
    ensures |r| == |Filter(Split(name, ' '), IsWord())|
    ensures forall i :: 0 <= i < |r| ==> r[i] == UpperChar(Filter(Split(name, ' '), IsWord())[i][0])
  {
    Upper(FirstChars(Split(name, ' ')))
  }

  /** An empty name has no initials; a single word has its upper-cased first letter. */
  lemma InitialsOfOneWord(w: string)
    requires ' ' !in w
    ensures GetInitials(w) == if w == "" then "" else [UpperChar(w[0])]
  {
    SplitWithoutSeparator(w, ' ');
  }

  /**
   * Adding a word after a space adds its initial, and adding an empty word
   * (a doubled or trailing space) adds nothing.
   */
  lemma InitialsAppendWord(name: string, w: string)
    requires ' ' !in w
    ensures GetInitials(name + " " + w) == GetInitials(name) + (if w == "" then "" else [UpperChar(w[0])])
  {
    var parts := Split(name, ' ');
    assert name + " " + w == name + [' '] + w;
    SplitAppend(name, ' ', w);
    FirstCharsAppend(parts, [w]);
    FirstCharsOfWord(w);
    UpperAppend(FirstChars(parts), FirstChars([w]));
  }

  /** A single word contributes its first character, and an empty one nothing. */
  lemma FirstCharsOfWord(w: string)
    ensures FirstChars([w]) == if w == "" then "" else [w[0]]
  {
    assert [w][1..] == [];
  }

  /** Upper-casing distributes over concatenation. */
  lemma UpperAppend(a: string, b: string)
    ensures Upper(a + b) == Upper(a) + Upper(b)
  {
  }

  /** `getDisplayName`: '' without a user, else the metadata name, the email or 'User', the first that is non-empty. */
  function DisplayName(user: Option<User>): (name: string)
    ensures name == "" <==> user.None?
    ensures user.Some? && Truthy(user.value.metadataDisplayName) ==> name == user.value.metadataDisplayName.value
    ensures user.Some? && !Truthy(user.value.metadataDisplayName) && user.value.email != "" ==> name == user.value.email
  {
    if user.None? then ""
    else if Truthy(user.value.metadataDisplayName) then user.value.metadataDisplayName.value
    else if user.value.email != "" then user.value.email
    else "User"
  }

  /** The profile's own `display_name` plays no part in the name shown here. */
  lemma DisplayNameIgnoresProfileName(user: User, other: Option<string>)
    ensures DisplayName(Some(user.(displayName := other))) == DisplayName(Some(user))
  {
  }

  /** The right-hand side of the bar. */
  datatype Corner = SignInLinks | UserMenu(initials: string, name: string, dropdownOpen: bool)

  /** The links render exactly without a user, the menu (with the user's initials and name) exactly with one. */
  function RenderCorner(user: Option<User>, isDropdownOpen: bool): (c: Corner)
    ensures c.SignInLinks? <==> user.None?
    ensures c.UserMenu? ==> c.name != "" && c.initials == GetInitials(c.name) && c.dropdownOpen == isDropdownOpen
  {
    if user.Some? then
      var name := DisplayName(user);
      UserMenu(GetInitials(name), name, isDropdownOpen)
    else SignInLinks
  }

  class NavigationBar {
    var isDropdownOpen: bool

    constructor ()
      ensures !isDropdownOpen
    {
      isDropdownOpen := false;
    }

    /** `toggleDropdown`. */
    method ToggleDropdown()
      modifies this
      ensures isDropdownOpen == !old(isDropdownOpen)
    {
      isDropdownOpen := !isDropdownOpen;
    }
  }
}
