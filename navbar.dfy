/** The pure display rules of src/components/layout/Navbar.tsx: where the dashboard
    link points, the avatar initials, the cart badge and the item/items label. */
module Navbar {
  import opened Types
  import opened Text
  import RouteGuard

  /** The signed-in user as `/api/auth/me` returns it; `name` may be missing. */
  datatype User = User(name: Option<string>, role: string)

  /** `getDashboardLink`. */
  function DashboardLink(user: Option<User>): (link: string)
    ensures user.None? ==> link == "/login"
    ensures user.Some? && user.value.role == "ADMIN" ==> link == "/admin/dashboard"
    ensures user.Some? && user.value.role == "PROVIDER" ==> link == "/provider/dashboard"
    ensures user.Some? && user.value.role != "ADMIN" && user.value.role != "PROVIDER" ==> link == "/dashboard"
  {
    match user
    case None => "/login"
    case Some(u) =>
      if u.role == "ADMIN" then "/admin/dashboard"
      else if u.role == "PROVIDER" then "/provider/dashboard"
      else "/dashboard"
  }

  /** The caption of the dashboard button. */
  function DashboardCaption(u: User): (caption: string)
    ensures caption == "Admin Panel" <==> u.role == "ADMIN"
    ensures caption == "My Restaurant" <==> u.role == "PROVIDER"
    ensures caption == "My Orders" <==> u.role != "ADMIN" && u.role != "PROVIDER"
  {
    if u.role == "ADMIN" then "Admin Panel"
    else if u.role == "PROVIDER" then "My Restaurant"
    else "My Orders"
  }

  /** For each of the three roles the dashboard link is the page the route guard sends
      that role to, and the guard lets that role through to it: the link never bounces. */
  lemma DashboardLinkPasses(u: User, r: Role, token: Option<string>, decode: string -> Option<RouteGuard.Claims>)
    requires u.role == RoleName(r)
    requires RouteGuard.RoleOf(token, decode) == Some(u.role)
    ensures DashboardLink(Some(u)) == RouteGuard.Home(r)
    ensures RouteGuard.Proxy(token, decode, DashboardLink(Some(u))) == RouteGuard.Next
  {
    RouteGuard.HomePasses(token, decode, r);
  }

  // ------------------------------------------------------------ initials

  /** `words.map(n => n[0]).join("")`: an empty word maps to `undefined`, which `join`
      writes as nothing. */
  function Firsts(words: seq<string>): (r: string)
    ensures |r| <= |words|
  {
    if words == [] then []
    else (if words[0] == [] then [] else [words[0][0]]) + Firsts(words[1..])
  }

  /** The number of non-empty words. */
  function NonEmptyCount(words: seq<string>): nat
  {
    if words == [] then 0 else (if words[0] == [] then 0 else 1) + NonEmptyCount(words[1..])
  }

  /** `getProfileInitials`: "U" without a name, otherwise one upper-cased letter per
      non-empty word. */
  function Initials(user: Option<User>): (r: string)
    ensures user.None? || user.value.name.None? || user.value.name.value == "" ==> r == "U"
    ensures user.Some? && user.value.name.Some? && user.value.name.value != "" ==>
      |r| == NonEmptyCount(Split(user.value.name.value))
  {
    if user.None? || user.value.name.None? || user.value.name.value == "" then "U"
    else
      var words := Split(user.value.name.value);
      FirstsSpec(words);
      Upper(Firsts(words))
  }

  /** Taking first letters distributes over concatenation of word lists: the initials
      keep the order of the words. */
  lemma {:induction false} FirstsAppend(a: seq<string>, b: seq<string>)
    ensures Firsts(a + b) == Firsts(a) + Firsts(b)
  {
    if a == [] {
      assert a + b == b;
    } else {
      assert (a + b)[0] == a[0];
      assert (a + b)[1..] == a[1..] + b;
      FirstsAppend(a[1..], b);
    }
  }

  /** A single word contributes its first letter, or nothing when it is empty. */
  lemma FirstsOne(w: string)
    ensures Firsts([w]) == if w == [] then [] else [w[0]]
  {
    assert [w][1..] == [];
  }

  /** For non-empty words the initials are, position by position, their first letters. */
  lemma {:induction false} FirstsOfWords(words: seq<string>)
    requires forall i :: 0 <= i < |words| ==> words[i] != []
    ensures |Firsts(words)| == |words|
    ensures forall i :: 0 <= i < |words| ==> Firsts(words)[i] == words[i][0]
  {
    if words != [] {
      FirstsOfWords(words[1..]);
      var f := Firsts(words);
      assert f == [words[0][0]] + Firsts(words[1..]);
      forall i | 0 < i < |words| ensures f[i] == words[i][0] {
        assert words[1..][i - 1] == words[i];
      }
    }
  }

  /** A name made of non-empty space-free words joined by single spaces has as initials
      the upper-cased first letter of each word, in word order. */
  lemma InitialsOfWords(words: seq<string>, role: string)
    requires |words| >= 1
    requires forall i :: 0 <= i < |words| ==> words[i] != [] && ' ' !in words[i]
    ensures var r := Initials(Some(User(Some(Join(words, " ")), role)));
      |r| == |words| && forall i :: 0 <= i < |words| ==> r[i] == UpperChar(words[i][0])
  {
    JoinSplit(words);
    FirstsOfWords(words);
  }

  /** One initial per non-empty word, each being that word's first character. */
  lemma {:induction false} FirstsSpec(words: seq<string>)
    ensures |Firsts(words)| == NonEmptyCount(words)
    ensures forall c :: c in Firsts(words) <==> exists w :: w in words && w != [] && w[0] == c
  {
    if words != [] {
      FirstsSpec(words[1..]);
      assert words == [words[0]] + words[1..];
      forall c | c in Firsts(words) ensures exists w :: w in words && w != [] && w[0] == c {
        if words[0] != [] && c == words[0][0] {
          assert words[0] in words;
        } else {
          assert c in Firsts(words[1..]);
          var w :| w in words[1..] && w != [] && w[0] == c;
          assert w in words;
        }
      }
      forall c | exists w :: w in words && w != [] && w[0] == c ensures c in Firsts(words) {
        var w :| w in words && w != [] && w[0] == c;
        if w != words[0] {
          assert w in words[1..];
        }
      }
    }
  }

  /** No name gives "U"; otherwise there are at most as many initials as words (one more
      than the spaces), and none of them is a space. */
  lemma InitialsBounds(user: Option<User>)
    ensures user.None? || user.value.name.None? || user.value.name.value == "" ==> Initials(user) == "U"
    ensures user.Some? && user.value.name.Some? && user.value.name.value != "" ==>
      |Initials(user)| <= |Split(user.value.name.value)| == CountChar(user.value.name.value, ' ') + 1
      && ' ' !in Initials(user)
  {
    if user.Some? && user.value.name.Some? && user.value.name.value != "" {
      var name := user.value.name.value;
      SplitCount(name);
      var f := Firsts(Split(name));
      FirstsSpec(Split(name));
      forall i | 0 <= i < |f| ensures UpperChar(f[i]) != ' ' {
        assert f[i] in f;
        var w :| w in Split(name) && w != [] && w[0] == f[i];
        assert w[0] in w;
      }
    }
  }

  /** Two space-free words joined by one space have the two first letters, upper-cased, as initials. */
  lemma InitialsOfTwoWords(a: string, b: string, role: string)
    requires a != [] && b != [] && ' ' !in a && ' ' !in b
    ensures Initials(Some(User(Some(a + [' '] + b), role))) == [UpperChar(a[0]), UpperChar(b[0])]
  {
    var name := a + [' '] + b;
    SpaceIndexAfterWord(a, b);
    assert name[..|a|] == a;
    assert name[|a| + 1..] == b;
    SpaceIndexNoSpace(b);
    assert b[..|b|] == b;
    assert Split(b) == [b];
    assert Split(name) == [a, b];
    assert [a, b][1..] == [b];
    assert [b][1..] == [];
    assert Firsts([b]) == [b[0]];
    assert Firsts([a, b]) == [a[0]] + Firsts([b]);
  }

  // ------------------------------------------------------------ cart labels

  /** The cart badge: the count, capped at the text "9+". */
  function Badge(totalItems: int): (b: string)
    ensures b == "9+" <==> totalItems > 9
    ensures totalItems >= 0 ==> 1 <= |b| <= 2
  {
    if totalItems > 9 then "9+"
    else
      var s := IntToString(totalItems);
      assert s != "9+" by {
        if totalItems >= 0 { assert |s| == 1; } else { assert s[0] == '-'; }
      }
      s
  }

  /** Below the cap the badge reads back as the exact count. */
  lemma BadgeReadsBack(totalItems: int)
    requires totalItems <= 9
    ensures ParseInt(Badge(totalItems)) == Some(totalItems)
  {
    ParseIntOfIntToString(totalItems);
  }

  /** The noun of the mobile cart link. */
  function ItemWord(totalItems: int): (w: string)
    ensures w == "item" <==> totalItems == 1
    ensures w == "items" <==> totalItems != 1
  {
    if totalItems == 1 then "item" else "items"
  }
}
