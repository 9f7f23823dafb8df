/** The shared navigation bar: the two menu flags, logging out, and the
    initials shown for the signed-in user. */
module Navbar {
  import opened Base
  import opened Text
  import opened Seqs
  import opened Auth

  /** `s[0]`: the first character, `undefined` for the empty string. */
  function FirstChar(s: string): Option<char> {
    if s == [] then None else Some(s[0])
  }

  /** `a + b` for two values that are each a one-character string or
      `undefined`: `undefined` joins a string as the text "undefined", and
      two `undefined`s add up to `NaN`, on which `toUpperCase` throws. */
  function ConcatChars(a: Option<char>, b: Option<char>): Result<string> {
    match (a, b)
    case (Some(x), Some(y)) => Ok([x, y])
    case (Some(x), None) => Ok([x] + "undefined")
    case (None, Some(y)) => Ok("undefined" + [y])
    case (None, None) => Err("TypeError")
  }

  /** The name the initials are taken from when first and last name are
      not both present. */
  function InitialsSource(u: User): (name: string)
    ensures name != ""
  {
    OrElse(Or(Or(u.name, Some(u.firstName)), Some(u.email)), "User")
  }

  /** `getInitials` as written: the space-separated parts of the name are
      used even when empty, so an empty part contributes "undefined", and
      two empty parts make the call throw. */
  function InitialsAsWritten(user: Option<User>): (r: Result<string>)
    ensures user.None? ==> r == Ok("U")
    ensures r.Err? <==>
              && user.Some? && (user.value.firstName == "" || user.value.lastName == "")
              && var parts := Split(InitialsSource(user.value), ' ');
                 |parts| >= 2 && parts[0] == "" && parts[1] == ""
  {
    match user
    case None => Ok("U")
    case Some(u) =>
      if u.firstName != "" && u.lastName != "" then Ok(Upper([u.firstName[0], u.lastName[0]]))
      else
        var name := InitialsSource(u);
        var parts := Split(name, ' ');
        if |parts| >= 2 then
          match ConcatChars(FirstChar(parts[0]), FirstChar(parts[1]))
          case Ok(s) => Ok(Upper(s))
          case Err(e) => Err(e)
        else Ok(Upper(Take(name, 2)))
  }

  /** The test that keeps the non-empty parts. */
  function NonBlank(): string -> bool {
    (s: string) => s != ""
  }

  /** The words of a name: its space-separated parts that are not empty.
      None is empty and none holds a space. */
  function Words(name: string): (words: seq<string>)
    ensures forall i :: 0 <= i < |words| ==> words[i] != "" && ' ' !in words[i]
  {
    var parts := Split(name, ' ');
    var words := Filter(parts, NonBlank());
    forall i | 0 <= i < |words| ensures words[i] != "" && ' ' !in words[i] {
      FilterMembers(parts, NonBlank(), words[i]);
    }
    words
  }

  /** The initials taken from a name: those of its first two words, the
      first two letters of its only word, or "U" when it has no word at
      all. One or two characters, never a space. */
  function NameInitials(name: string): (r: string)
    ensures 1 <= |r| <= 2 && ' ' !in r
    ensures |Words(name)| >= 2 ==> r == [UpperChar(Words(name)[0][0]), UpperChar(Words(name)[1][0])]
    ensures |Words(name)| == 1 ==> r == Upper(Take(Words(name)[0], 2))
    ensures |Words(name)| == 0 ==> r == "U"
  {
    var words := Words(name);
    if |words| >= 2 then Upper([words[0][0], words[1][0]])
    else if |words| == 1 then
      var w := words[0];
      assert forall k :: 0 <= k < |Take(w, 2)| ==> Take(w, 2)[k] == w[k];
      Upper(Take(w, 2))
    else "U"
  }

  /** `getInitials` with the empty parts left out: "U" without a user, the
      initials of first and last name when both are present, and otherwise
      the initials of the name as `NameInitials` takes them. Always one or
      two characters. */
  function Initials(user: Option<User>): (r: string)
    ensures 1 <= |r| <= 2
    ensures user.None? ==> r == "U"
    ensures user.Some? && user.value.firstName != "" && user.value.lastName != "" ==>
              r == [UpperChar(user.value.firstName[0]), UpperChar(user.value.lastName[0])]
    ensures user.Some? && (user.value.firstName == "" || user.value.lastName == "") ==>
              r == NameInitials(InitialsSource(user.value))
  {
    match user
    case None => "U"
    case Some(u) =>
      if u.firstName != "" && u.lastName != "" then Upper([u.firstName[0], u.lastName[0]])
      else NameInitials(InitialsSource(u))
  }

  /** No space-separated part of the name is empty: it has no leading,
      trailing or doubled space. */
  predicate NoEmptyPart(name: string) {
    var parts := Split(name, ' ');
    forall i :: 0 <= i < |parts| ==> parts[i] != ""
  }

  /** A name whose every space-separated part is non-empty (no leading,
      trailing or doubled space) gets the same initials either way. */
  lemma InitialsAgree(user: Option<User>)
    requires user.Some? ==> NoEmptyPart(InitialsSource(user.value))
    ensures InitialsAsWritten(user) == Ok(Initials(user))
  {
    if user.Some? {
      var parts := Split(InitialsSource(user.value), ' ');
      FilterKeepsAll(parts, NonBlank());
      assert Words(InitialsSource(user.value)) == parts;
      if |parts| == 1 {
        JoinSplit(InitialsSource(user.value), ' ');
        assert parts[0] == InitialsSource(user.value);
      }
    }
  }

  /** The parts of "A  B": the doubled space leaves an empty one. */
  lemma SplitDoubledSpace()
    ensures Split("A  B", ' ') == ["A", "", "B"]
  {
    SplitCons('B', "", ' ');
    assert ['B'] + "" == "B";
    assert Split("B", ' ') == ["B"];
    SplitCons(' ', "B", ' ');
    assert [' '] + "B" == " B";
    assert Split(" B", ' ') == ["", "B"];
    SplitCons(' ', " B", ' ');
    assert [' '] + " B" == "  B";
    assert Split("  B", ' ') == ["", "", "B"];
    SplitCons('A', "  B", ' ');
    assert ['A'] + "  B" == "A  B";
    assert ['A'] + "" == "A";
    assert ["", "", "B"][1..] == ["", "B"];
  }

  /** A doubled space in the name gives "AUNDEFINED" where "AB" is meant. */
  lemma InitialsDoubledSpace()
    ensures var u := User(None, "a@example.com", "", "", None, Some("A  B"), None);
      && InitialsAsWritten(Some(u)) == Ok("AUNDEFINED")
      && Initials(Some(u)) == "AB"
  {
    var u := User(None, "a@example.com", "", "", None, Some("A  B"), None);
    assert InitialsSource(u) == "A  B";
    SplitDoubledSpace();
    var parts := ["A", "", "B"];
    assert ['A'] + "undefined" == "Aundefined";
    assert ConcatChars(FirstChar(parts[0]), FirstChar(parts[1])) == Ok("Aundefined");
    assert Upper("Aundefined") == "AUNDEFINED";
    WordsDoubledSpace();
    assert Upper(['A', 'B']) == "AB";
  }

  /** The words of "A  B" are "A" and "B". */
  lemma WordsDoubledSpace()
    ensures Words("A  B") == ["A", "B"]
  {
    SplitDoubledSpace();
    var parts := ["A", "", "B"];
    assert parts[1..] == ["", "B"] && parts[1..][1..] == ["B"] && parts[1..][1..][1..] == [];
    assert Filter(parts, NonBlank()) == ["A", "B"];
  }

  /** The parts of "  Ann": the two leading spaces leave two empty ones. */
  lemma SplitLeadingSpaces()
    ensures Split("  Ann", ' ') == ["", "", "Ann"]
  {
    assert Split("", ' ') == [""];
    SplitCons('n', "", ' ');
    assert ['n'] + "" == "n";
    SplitCons('n', "n", ' ');
    assert ['n'] + "n" == "nn";
    SplitCons('A', "nn", ' ');
    assert ['A'] + "nn" == "Ann";
    SplitCons(' ', "Ann", ' ');
    assert [' '] + "Ann" == " Ann";
    SplitCons(' ', " Ann", ' ');
    assert [' '] + " Ann" == "  Ann";
  }

  /** A name that starts with two spaces makes the call throw, where "AN"
      is meant. */
  lemma InitialsLeadingSpaces()
    ensures InitialsAsWritten(Some(User(None, "", "", "", None, Some("  Ann"), None))).Err?
    ensures Initials(Some(User(None, "", "", "", None, Some("  Ann"), None))) == "AN"
  {
    SplitLeadingSpaces();
    var parts := ["", "", "Ann"];
    assert parts[1..] == ["", "Ann"] && parts[1..][1..] == ["Ann"] && parts[1..][1..][1..] == [];
    assert Words("  Ann") == ["Ann"];
    assert Take("Ann", 2) == "An";
    assert Upper("An") == "AN";
  }

  class NavbarComponent {
    const authService: AuthService
    var menuOpen: bool
    var userMenuOpen: bool

    constructor (authService: AuthService)
      ensures this.authService == authService && !menuOpen && !userMenuOpen
    {
      this.authService := authService;
      menuOpen := false;
      userMenuOpen := false;
    }

    /** `toggleMenu`: flips the main menu; opening it closes the user
        menu, closing it leaves the user menu as it was. */
    method ToggleMenu()
      modifies this`menuOpen, this`userMenuOpen
      ensures menuOpen == !old(menuOpen)
      ensures menuOpen ==> !userMenuOpen
      ensures !menuOpen ==> userMenuOpen == old(userMenuOpen)
    {
      menuOpen := !menuOpen;
      if menuOpen {
        userMenuOpen := false;
      }
    }

    /** `closeMenu`: both menus closed, whatever they were. */
    method CloseMenu()
      modifies this`menuOpen, this`userMenuOpen
      ensures !menuOpen && !userMenuOpen
    {
      menuOpen := false;
      userMenuOpen := false;
    }

    /** `toggleUserMenu`: flips the user menu only. */
    method ToggleUserMenu()
      modifies this`userMenuOpen
      ensures userMenuOpen == !old(userMenuOpen)
    {
      userMenuOpen := !userMenuOpen;
    }

    /** `logout`: the service's logout, then both menus closed. */
    method Logout()
      modifies this`menuOpen, this`userMenuOpen, authService`storage, authService`currentUser
      ensures !menuOpen && !userMenuOpen
      ensures !authService.IsAuthenticated()
      ensures authService.isBrowser ==>
                authService.storage == old(authService.storage) - {UserKey, TokenKey, RefreshTokenKey}
                && authService.currentUser == None
      ensures !authService.isBrowser ==>
                authService.storage == old(authService.storage) && authService.currentUser == old(authService.currentUser)
    {
      authService.Logout();
      CloseMenu();
    }

    /** `getInitials()` for the signed-in user, as written: `Err` stands
        for the TypeError the call throws. For a name without an empty
        space-separated part it gives the corrected initials. */
    function GetInitials(): (r: Result<string>)
      reads this, authService
      ensures r == InitialsAsWritten(authService.currentUser)
      ensures authService.currentUser.None? ==> r == Ok("U")
      ensures r.Err? <==>
                && authService.currentUser.Some?
                && (authService.currentUser.value.firstName == "" || authService.currentUser.value.lastName == "")
                && var parts := Split(InitialsSource(authService.currentUser.value), ' ');
                   |parts| >= 2 && parts[0] == "" && parts[1] == ""
      ensures authService.currentUser.Some? && NoEmptyPart(InitialsSource(authService.currentUser.value)) ==>
                r == Ok(Initials(authService.currentUser)) && 1 <= |r.value| <= 2
    {
      var user := authService.currentUser;
      if user.None? || NoEmptyPart(InitialsSource(user.value)) then
        InitialsAgree(user);
        InitialsAsWritten(user)
      else
        InitialsAsWritten(user)
    }
  }
}
