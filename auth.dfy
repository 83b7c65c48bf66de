/** The request gates of the backend (middleware/authMiddleware.js): the
    bearer-token check of `protect` and the role checks `isAdmin` and
    `isAdminOrSeller`.  Token verification and the user lookup are oracles
    passed in as functions. */
module AuthMiddleware {
  import opened Common

  /** The user attached to a request. */
  datatype User = User(id: UserId, role: string)

  /** What a gate does with a request: pass it on, or answer it. */
  datatype Outcome = Next | Deny(status: int, message: string)

  /** What `protect` does: answer 401, or pass the request on with the user
      the lookup found (possibly none). */
  datatype Protected = Rejected(status: int, message: string) | Authenticated(user: Option<User>)

  const BEARER := "Bearer "

  /** `parts.join(" ")` */
  function Join(parts: seq<string>): string
    requires |parts| >= 1
  {
    if |parts| == 1 then parts[0] else parts[0] + " " + Join(parts[1..])
  }

  /** `s.split(" ")`: space-free fields that, joined again with single
      spaces, give back `s`. */
  function Split(s: string): (r: seq<string>)
    ensures |r| >= 1
    ensures forall i :: 0 <= i < |r| ==> ' ' !in r[i]
    ensures Join(r) == s
  {
    if s == [] then [""]
    else if s[0] == ' ' then
      var rest := Split(s[1..]);
      assert Join([""] + rest) == "" + " " + Join(rest) by {
        assert ([""] + rest)[1..] == rest;
      }
      assert s == " " + s[1..];
      [""] + rest
    else
      var rest := Split(s[1..]);
      var r := [[s[0]] + rest[0]] + rest[1..];
      assert Join(r) == [s[0]] + Join(rest) by {
        if |rest| > 1 {
          assert r[1..] == rest[1..];
          assert Join(rest) == rest[0] + " " + Join(rest[1..]);
        }
      }
      assert s == [s[0]] + s[1..];
      assert forall i :: 1 <= i < |r| ==> r[i] == rest[i];
      r
  }

  /** The text up to the first space. */
  function FirstWord(s: string): (w: string)
    ensures w <= s && ' ' !in w
    ensures |w| < |s| ==> s[|w|] == ' '
  {
    if s == [] || s[0] == ' ' then "" else [s[0]] + FirstWord(s[1..])
  }

  /** The first field of a split is the text up to the first space. */
  lemma {:induction false} SplitFirst(s: string)
    ensures Split(s)[0] == FirstWord(s)
  {
    if s != [] && s[0] != ' ' {
      SplitFirst(s[1..]);
    }
  }

  /** Splitting after a space-free word and a space gives that word and then
      the split of the rest. */
  lemma {:induction false} SplitAfterWord(w: string, rest: string)
    requires ' ' !in w
    ensures Split(w + " " + rest) == [w] + Split(rest)
  {
    if w == [] {
      assert w + " " + rest == [' '] + rest;
      assert (w + " " + rest)[1..] == rest;
    } else {
      var s := w + " " + rest;
      assert s[0] == w[0] && w[0] != ' ';
      assert ' ' !in w[1..];
      SplitAfterWord(w[1..], rest);
      assert s[1..] == w[1..] + " " + rest;
      assert [w[0]] + w[1..] == w;
    }
  }

  /** `authHeader.split(" ")[1]` for a header that starts with "Bearer ": the
      text after the prefix, up to the next space. */
  function BearerToken(header: string): (token: string)
    requires BEARER <= header
    ensures token == FirstWord(header[|BEARER|..])
  {
    var rest := header[|BEARER|..];
    assert header == "Bearer" + " " + rest;
    SplitAfterWord("Bearer", rest);
    SplitFirst(rest);
    Split(header)[1]
  }

  /** `protect`: refuse a missing header or one without the "Bearer " prefix,
      refuse a token that does not verify, and otherwise pass the request on
      with whatever user the lookup returns. */
  function Protect(header: Option<string>, verify: string -> Option<UserId>, lookup: UserId -> Option<User>)
    : (r: Protected)
    ensures !Present(header) || !(BEARER <= header.value) ==>
      r == Rejected(UNAUTHORIZED, "No token, authorization denied")
    ensures r.Rejected? ==> r.status == UNAUTHORIZED
    ensures r.Authenticated? <==>
      Present(header) && BEARER <= header.value && verify(FirstWord(header.value[|BEARER|..])).Some?
    ensures r.Authenticated? ==> r.user == lookup(verify(FirstWord(header.value[|BEARER|..])).value)
  {
    if !Present(header) || !(BEARER <= header.value) then
      Rejected(UNAUTHORIZED, "No token, authorization denied")
    else
      match verify(BearerToken(header.value))
      case None => Rejected(UNAUTHORIZED, "Token invalid")
      case Some(id) => Authenticated(lookup(id))
  }

  /** `isAdmin`: 401 without a user, pass for role admin, 403 otherwise. */
  function IsAdmin(user: Option<User>): (r: Outcome)
    ensures r == Next <==> user.Some? && user.value.role == "admin"
    ensures user.None? ==> r == Deny(UNAUTHORIZED, "Not authenticated")
    ensures user.Some? && r != Next ==> r == Deny(FORBIDDEN, "Admin only")
  {
    if user.None? then Deny(UNAUTHORIZED, "Not authenticated")
    else if user.value.role == "admin" then Next
    else Deny(FORBIDDEN, "Admin only")
  }

  /** `isAdminOrSeller`: 401 without a user, pass for admin or seller, 403
      otherwise.  It admits everyone `isAdmin` admits. */
  function IsAdminOrSeller(user: Option<User>): (r: Outcome)
    ensures r == Next <==> user.Some? && user.value.role in {"admin", "seller"}
    ensures user.None? ==> r == Deny(UNAUTHORIZED, "Not authenticated")
    ensures user.Some? && r != Next ==> r == Deny(FORBIDDEN, "Admin or seller only")
    ensures IsAdmin(user) == Next ==> r == Next
  {
    if user.None? then Deny(UNAUTHORIZED, "Not authenticated")
    else if user.value.role == "admin" || user.value.role == "seller" then Next
    else Deny(FORBIDDEN, "Admin or seller only")
  }
}
