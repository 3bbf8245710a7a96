/** The two request guards: `protect` takes the bearer token from the
    Authorization header and resolves it to a user; `authorize` admits a
    user whose role is among the route's roles. Token verification is a
    parameter: it yields the user id the token names, or nothing when it
    fails. */
module Auth {
  import opened Common
  import opened Users

  predicate NoSpace(s: string) {
    forall k :: 0 <= k < |s| ==> s[k] != ' '
  }

  /** The index of the first space of `s`, or `|s|` when it has none. */
  function FirstSpace(s: string): (i: nat)
    ensures i <= |s|
    ensures forall k :: 0 <= k < i ==> s[k] != ' '
    ensures i < |s| ==> s[i] == ' '
  {
    if |s| == 0 then 0
    else if s[0] == ' ' then 0
    else FirstSpace(s[1..]) + 1
  }

  /** `s.split(' ')`: the pieces between single spaces, empty ones included. */
  function Split(s: string): (fields: seq<string>)
    ensures |fields| >= 1
    ensures forall k :: 0 <= k < |fields| ==> NoSpace(fields[k])
    decreases |s|
  {
    var i := FirstSpace(s);
    if i == |s| then [s] else [s[..i]] + Split(s[i + 1..])
  }

  /** `fields.join(' ')`. */
  function Join(fields: seq<string>): string
    requires |fields| >= 1
  {
    if |fields| == 1 then fields[0] else fields[0] + " " + Join(fields[1..])
  }

  /** Splitting loses nothing: joining the pieces gives the header back. */
  lemma {:induction false} JoinSplit(s: string)
    ensures Join(Split(s)) == s
    decreases |s|
  {
    var i := FirstSpace(s);
    if i < |s| {
      JoinSplit(s[i + 1..]);
      assert s == s[..i] + " " + s[i + 1..];
    }
  }

  /** Pieces without spaces are recovered by splitting their join. */
  lemma {:induction false} SplitJoin(fields: seq<string>)
    requires |fields| >= 1
    requires forall k :: 0 <= k < |fields| ==> NoSpace(fields[k])
    ensures Split(Join(fields)) == fields
  {
    var s := Join(fields);
    if |fields| == 1 {
      assert FirstSpace(s) == |s| by {
        FirstSpaceOf(s, |s|);
      }
    } else {
      var head := fields[0];
      assert s == head + " " + Join(fields[1..]);
      FirstSpaceOf(s, |head|);
      assert s[..|head|] == head;
      assert s[|head| + 1..] == Join(fields[1..]);
      SplitJoin(fields[1..]);
    }
  }

  /** A position preceded by no space and holding one (or the end) is the first space. */
  lemma FirstSpaceOf(s: string, i: nat)
    requires i <= |s| && (forall k :: 0 <= k < i ==> s[k] != ' ') && (i < |s| ==> s[i] == ' ')
    ensures FirstSpace(s) == i
  {
  }

  predicate StartsWith(s: string, prefix: string) {
    |prefix| <= |s| && s[..|prefix|] == prefix
  }

  /** The token `protect` extracts: the second space-separated field of a
      header that starts with "Bearer", undefined (None) otherwise. */
  function ExtractToken(header: Option<string>): (token: Option<string>)
    ensures token.Some? ==> header.Some? && StartsWith(header.value, "Bearer")
    ensures token.Some? ==> NoSpace(token.value)
  {
    if Truthy(header) && StartsWith(header.value, "Bearer") then
      var fields := Split(header.value);
      if |fields| >= 2 then Some(fields[1]) else None
    else None
  }

  /** The extracted token is the second field of the header, read back
      through Split and Join. */
  lemma TokenIsSecondField(h: string)
    requires ExtractToken(Some(h)).Some?
    ensures h == Join(Split(h)) && |Split(h)| >= 2 && ExtractToken(Some(h)).value == Split(h)[1]
  {
    JoinSplit(h);
  }

  /** "Bearer <token>" followed by nothing or by a space and further text
      yields exactly that token. */
  lemma BearerHeaderYieldsToken(token: string, tail: string)
    requires NoSpace(token)
    requires tail == "" || tail[0] == ' '
    ensures ExtractToken(Some("Bearer " + token + tail)) == Some(token)
  {
    var h := "Bearer " + token + tail;
    assert h[..6] == "Bearer";
    FirstSpaceOf(h, 6);
    var after := h[7..];
    assert after == token + tail;
    FirstSpaceOf(after, |token|);
    assert after[..|token|] == token;
    assert h[..6] == "Bearer";
    assert Split(h) == [h[..6]] + Split(after);
    assert Split(after)[0] == token;
    assert |Split(h)| >= 2 && Split(h)[1] == token;
    assert Truthy(Some(h)) && StartsWith(h, "Bearer");
  }

  /** A header that is "Bearer" alone, or "Bearer" run into further text
      with no space, yields no token. */
  lemma BearerWithoutSpaceHasNoToken(h: string)
    requires StartsWith(h, "Bearer") && NoSpace(h)
    ensures ExtractToken(Some(h)) == None
  {
    FirstSpaceOf(h, |h|);
  }

  /** Two spaces after "Bearer" yield the empty token, which protect treats
      as no token at all. */
  lemma DoubleSpaceYieldsEmptyToken(rest: string)
    ensures ExtractToken(Some("Bearer  " + rest)) == Some("")
  {
    var h := "Bearer  " + rest;
    assert h[..6] == "Bearer";
    FirstSpaceOf(h, 6);
    var tail := h[7..];
    assert tail == " " + rest;
    FirstSpaceOf(tail, 0);
    assert Split(tail)[0] == "";
  }

  /** A header that does not start with "Bearer" (another scheme, a
      lower-case "bearer", a bare token) yields no token. */
  lemma OtherSchemeHasNoToken(h: string)
    requires !StartsWith(h, "Bearer")
    ensures ExtractToken(Some(h)) == None
  {
  }

  /** The outcome of a guard: pass to the next handler, or stop with an error. */
  datatype Gate<T> = Next(value: T) | Stop(failure: Failure)

  /** protect. `verify` stands for `jwt.verify` with the server's secret and
      yields the id the token names; the user found under that id (without
      its password) is handed on, or nothing when no such user exists. */
  function Protect(header: Option<string>, verify: string -> Option<Id>, users: map<Id, User>)
    : (g: Gate<Option<UserView>>)
    ensures !Truthy(ExtractToken(header)) <==> g == Stop(Failure(401, "Not authorized, no token"))
    ensures g == Stop(Failure(401, "Not authorized, token failed")) <==>
      Truthy(ExtractToken(header)) && verify(ExtractToken(header).value).None?
    ensures g.Next? ==> var id := verify(ExtractToken(header).value).value;
      g.value == (if id in users then Some(View(id, users[id])) else None)
  {
    var token := ExtractToken(header);
    if !Truthy(token) then Stop(Failure(401, "Not authorized, no token"))
    else
      var decoded := verify(token.value);
      if decoded.None? then Stop(Failure(401, "Not authorized, token failed"))
      else Next(if decoded.value in users then Some(View(decoded.value, users[decoded.value])) else None)
  }

  /** authorize(...roles) applied to the role string of `req.user`: an empty
      role is refused first, then any role outside the list. */
  function Authorize(allowed: seq<string>, role: string): (g: Gate<()>)
    ensures g.Next? <==> role != "" && role in allowed
    ensures role == "" ==> g == Stop(Failure(403, "User role not found"))
    ensures g.Stop? ==> g.failure.status == 403
  {
    if role == "" then Stop(Failure(403, "User role not found"))
    else if role !in allowed then Stop(Failure(403, "User role " + role + " is not authorized to access this route"))
    else Next(())
  }

  function RoleNames(roles: seq<Role>): (names: seq<string>)
    ensures |names| == |roles|
  {
    seq(|roles|, k requires 0 <= k < |roles| => RoleName(roles[k]))
  }

  lemma RoleNameInjective(a: Role, b: Role)
    ensures RoleName(a) == RoleName(b) <==> a == b
  {
  }

  /** For stored users, whose role is always one of the enumeration, the
      string test is exactly membership of the role in the route's list. */
  lemma AuthorizeIsRoleMembership(allowed: seq<Role>, r: Role)
    ensures Authorize(RoleNames(allowed), RoleName(r)).Next? <==> r in allowed
  {
    if r in allowed {
      var k :| 0 <= k < |allowed| && allowed[k] == r;
      assert RoleNames(allowed)[k] == RoleName(r);
    }
    if RoleName(r) in RoleNames(allowed) {
      var k :| 0 <= k < |allowed| && RoleNames(allowed)[k] == RoleName(r);
      RoleNameInjective(allowed[k], r);
    }
  }
}
