/** The page header (src/components/Header.tsx): the name and role shown for
    the signed-in user, the avatar initials, the role badge text and the
    role badge colour. All of it is computed from strings, with no state. */
module Header {
  import opened Common
  import opened Text
  import Session

  /** `user?.role || 'User'` */
  function DisplayRole(user: Option<Session.User>): (r: string)
    ensures r != ""
    ensures user.Some? && user.value.role != "" ==> r == user.value.role
    ensures user.None? || user.value.role == "" ==> r == "User"
  {
    if user.Some? && user.value.role != "" then user.value.role else "User"
  }

  /** `` user ? `${first_name} ${last_name}` : 'User' ``: a signed-in user with
      empty names still gets the single space, never the fallback. */
  function DisplayName(user: Option<Session.User>): (r: string)
    ensures user.None? ==> r == "User"
    ensures user.Some? ==> r == user.value.firstName + " " + user.value.lastName
    ensures user.Some? ==> ' ' in r
  {
    match user
    case None => "User"
    case Some(u) =>
      assert (u.firstName + " " + u.lastName)[|u.firstName|] == ' ';
      u.firstName + " " + u.lastName
  }

  /** `getUserInitials(name)`: split on single spaces, take each piece's first
      character, upper-case, keep at most two. The result is the first two
      word-starting characters of `name`, upper-cased. */
  function Initials(name: string): (r: string)
    ensures |r| == Min(2, |WordStarts(name, true)|)
    ensures forall i :: 0 <= i < |r| ==> r[i] == UpperChar(WordStarts(name, true)[i])
    ensures forall i :: 0 <= i < |r| ==> r[i] != ' ' && !IsLowerAscii(r[i])
  {
    FirstCharsOfSplit(name);
    var starts := WordStarts(name, true);
    assert forall i :: 0 <= i < |starts| ==> starts[i] in starts;
    var all := Upper(FirstChars(Split(name)));
    all[..Min(2, |all|)]
  }

  function Min(a: int, b: int): int { if a <= b then a else b }

  /** A word without spaces contributes its first character, when a word may
      start there, and nothing more. */
  lemma {:induction false} WordStartsPastWord(w: string, rest: string, atStart: bool)
    requires w != [] && ' ' !in w
    ensures WordStarts(w + rest, atStart) == (if atStart then [w[0]] else []) + WordStarts(rest, false)
  {
    assert (w + rest)[0] == w[0] && (w + rest)[1..] == w[1..] + rest;
    if |w| == 1 {
      assert w[1..] + rest == rest;
    } else {
      WordStartsPastWord(w[1..], rest, false);
    }
  }

  /** A signed-in user named with one word each gets the two first letters,
      upper-cased: "asha rai" shows "AR". */
  lemma InitialsOfFullName(first: string, last: string)
    requires first != [] && last != [] && ' ' !in first && ' ' !in last
    ensures Initials(first + " " + last) == [UpperChar(first[0]), UpperChar(last[0])]
  {
    var name := first + " " + last;
    assert name == first + (" " + last);
    WordStartsPastWord(first, " " + last, true);
    assert (" " + last)[1..] == last;
    assert WordStarts(" " + last, false) == WordStarts(last, true);
    WordStartsPastWord(last, [], true);
    assert last + [] == last;
    assert WordStarts(name, true) == [first[0], last[0]];
  }

  /** `formatRole(role)`: the first character upper-cased and the rest
      lower-cased; the empty role stays empty. */
  function FormatRole(role: string): (r: string)
    ensures |r| == |role|
    ensures role != [] ==> r[0] == UpperChar(role[0])
    ensures forall i :: 1 <= i < |role| ==> r[i] == LowerChar(role[i])
  {
    if role == [] then [] else Upper(role[..1]) + Lower(role[1..])
  }

  lemma SameLowerSameUpper(x: char, y: char)
    requires LowerChar(x) == LowerChar(y)
    ensures UpperChar(x) == UpperChar(y)
  {
  }

  /** Formatting an already formatted role changes nothing. */
  lemma FormatRoleIdempotent(role: string)
    ensures FormatRole(FormatRole(role)) == FormatRole(role)
  {
    var f := FormatRole(role);
    forall i | 1 <= i < |role|
      ensures FormatRole(f)[i] == f[i]
    {
      assert LowerChar(LowerChar(role[i])) == LowerChar(role[i]);
    }
  }

  /** Roles that differ only in case are shown the same: "ADMIN", "admin"
      and "Admin" all read "Admin". */
  lemma FormatRoleIgnoresCase(a: string, b: string)
    requires SameIgnoringCase(a, b)
    ensures FormatRole(a) == FormatRole(b)
  {
    if a != [] {
      assert LowerChar(a[0]) == Lower(a)[0] == Lower(b)[0] == LowerChar(b[0]);
      SameLowerSameUpper(a[0], b[0]);
      forall i | 1 <= i < |a|
        ensures FormatRole(a)[i] == FormatRole(b)[i]
      {
        assert LowerChar(a[i]) == Lower(a)[i] == Lower(b)[i] == LowerChar(b[i]);
      }
    }
  }

  /** Formatting keeps the role's lower-case form. */
  lemma LowerOfFormatRole(role: string)
    ensures Lower(FormatRole(role)) == Lower(role)
  {
    var f := FormatRole(role);
    forall i | 0 <= i < |role|
      ensures Lower(f)[i] == Lower(role)[i]
    {
      if i == 0 {
        assert LowerChar(UpperChar(role[0])) == LowerChar(role[0]);
      } else {
        assert LowerChar(LowerChar(role[i])) == LowerChar(role[i]);
      }
    }
  }

  const SuperAdminColor := "bg-purple-100 text-purple-800 border-purple-200"
  const AdminColor := "bg-red-100 text-red-800 border-red-200"
  const CheckerColor := "bg-blue-100 text-blue-800 border-blue-200"
  const MakerColor := "bg-green-100 text-green-800 border-green-200"
  const DefaultColor := "bg-gray-100 text-gray-800 border-gray-200"

  /** The roles the badge knows, in lower case. */
  predicate KnownRole(lowered: string)
  {
    lowered == "super_admin" || lowered == "admin" || lowered == "checker" || lowered == "maker"
  }

  /** `getRoleColor(role)`: a switch on the lower-cased role. Each known role
      has its own colour; every other role, the empty one included, is gray. */
  function RoleColor(role: string): (r: string)
    ensures r == DefaultColor <==> !KnownRole(Lower(role))
    ensures Lower(role) == "super_admin" <==> r == SuperAdminColor
    ensures Lower(role) == "admin" <==> r == AdminColor
    ensures Lower(role) == "checker" <==> r == CheckerColor
    ensures Lower(role) == "maker" <==> r == MakerColor
  {
    var lowered := Lower(role);
    if lowered == "super_admin" then SuperAdminColor
    else if lowered == "admin" then AdminColor
    else if lowered == "checker" then CheckerColor
    else if lowered == "maker" then MakerColor
    else DefaultColor
  }

  /** The badge's colour and its text agree: the formatted role has the
      colour of the role it came from. */
  lemma RoleColorOfFormatted(role: string)
    ensures RoleColor(FormatRole(role)) == RoleColor(role)
  {
    LowerOfFormatRole(role);
  }

  /** The roles the backend sends, in upper case, get their colours. */
  lemma BackendRolesAreKnown()
    ensures RoleColor("SUPER_ADMIN") == SuperAdminColor
    ensures RoleColor("ADMIN") == AdminColor
    ensures RoleColor("CHECKER") == CheckerColor
    ensures RoleColor("MAKER") == MakerColor
    ensures RoleColor("User") == DefaultColor
  {
    assert Lower("SUPER_ADMIN") == "super_admin";
    assert Lower("ADMIN") == "admin";
    assert Lower("CHECKER") == "checker";
    assert Lower("MAKER") == "maker";
    assert Lower("User") == "user";
  }
}
