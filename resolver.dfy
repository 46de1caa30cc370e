/** Attendee resolution: each display name becomes one directory query; the
    first user found gives the address; misses and failures give `None`; the
    per-name answers are collected in name order and the falsy ones dropped.
    The directory query is a parameter: a total function from the filter text
    to what the query produced. */
module Resolver {
  import opened Wrappers
  import opened GraphModels

  const FilterPrefix := "startswith(givenName, '"
  const FilterSuffix := "') eq true"

  /** The filter text sent with the directory query: the name is spliced in
      verbatim between a fixed prefix and suffix, with no quote escaping. */
  function UserFilter(name: string): (f: string)
    ensures |f| == |FilterPrefix| + |name| + |FilterSuffix|
    ensures f[..|FilterPrefix|] == FilterPrefix
    ensures f[|FilterPrefix| + |name|..] == FilterSuffix
    ensures f[|FilterPrefix|..|FilterPrefix| + |name|] == name
  {
    FilterPrefix + name + FilterSuffix
  }

  /** Distinct names give distinct filters. */
  lemma UserFilterInjective(a: string, b: string)
    requires UserFilter(a) == UserFilter(b)
    ensures a == b
  {
  }

  /** Length of the run of `s` before its first single quote. */
  function QuoteFreeLength(s: string): (n: nat)
    ensures n <= |s|
    ensures forall i :: 0 <= i < n ==> s[i] != '\''
    ensures n < |s| ==> s[n] == '\''
  {
    if s == [] || s[0] == '\'' then 0 else 1 + QuoteFreeLength(s[1..])
  }

  /** The first quoted run of a filter of this shape: the text after the
      opening quote, up to the next quote. */
  function QuotedLiteral(f: string): Option<string>
  {
    if |FilterPrefix| <= |f| && f[..|FilterPrefix|] == FilterPrefix then
      var rest := f[|FilterPrefix|..];
      Some(rest[..QuoteFreeLength(rest)])
    else
      None
  }

  /** For a name without a single quote, the first quoted run is exactly the name. */
  lemma QuoteFreeNameIsLiteral(name: string)
    requires '\'' !in name
    ensures QuotedLiteral(UserFilter(name)) == Some(name)
  {
    var f := UserFilter(name);
    var rest := f[|FilterPrefix|..];
    assert rest == name + FilterSuffix;
    assert rest[|name|] == '\'';
    assert forall i :: 0 <= i < |name| ==> rest[i] == name[i];
  }

  /** With no escaping, a quote in the name ends the first quoted run early:
      for "O'Brien" it ends after "O". */
  lemma QuotedNameIsCut()
    ensures QuotedLiteral(UserFilter("O'Brien")) == Some("O")
  {
    var rest := UserFilter("O'Brien")[|FilterPrefix|..];
    assert rest == "O'Brien" + FilterSuffix;
    assert rest[0] == 'O' && rest[1] == '\'';
    assert QuoteFreeLength(rest) == 1;
    assert rest[..1] == "O";
  }

  /** The user a response names first, when it names any: an exception, a missing
      `value` and an empty `value` all give `None`. */
  function FirstUser(response: UsersResponse): Option<User>
  {
    if response.Response? && response.value.Some? && |response.value.value| > 0
    then Some(response.value.value[0])
    else None
  }

  /** `resolve_email_by_name`: the first matching user's `mail` if truthy, else
      its `user_principal_name`; `None` when the query fails or finds nobody. */
  function ResolveEmailByName(lookup: string -> UsersResponse, name: string): (r: Option<string>)
    ensures lookup(UserFilter(name)).Raised? ==> r == None
    ensures lookup(UserFilter(name)) == Response(None) ==> r == None
    ensures lookup(UserFilter(name)) == Response(Some([])) ==> r == None
    ensures var response := lookup(UserFilter(name));
            response.Response? && response.value.Some? && |response.value.value| > 0 ==>
              var user := response.value.value[0];
              (Truthy(user.mail) ==> r == user.mail) &&
              (!Truthy(user.mail) ==> r == user.userPrincipalName)
  {
    match FirstUser(lookup(UserFilter(name)))
    case None => None
    case Some(user) => Or(user.mail, user.userPrincipalName)
  }

  /** The gathered per-name answers, one per name and in name order. */
  function ResolveAll(lookup: string -> UsersResponse, names: seq<string>): seq<Option<string>>
  {
    seq(|names|, i requires 0 <= i < |names| => ResolveEmailByName(lookup, names[i]))
  }

  /** Number of truthy entries. */
  function CountTruthy(results: seq<Option<string>>): nat
  {
    if results == [] then 0
    else (if Truthy(results[0]) then 1 else 0) + CountTruthy(results[1..])
  }

  /** `xs` is the values of some of the entries of `ys`, in the same order. */
  predicate SubsequenceOf(xs: seq<string>, ys: seq<Option<string>>)
    decreases |ys|
  {
    if xs == [] then true
    else if ys == [] then false
    else (ys[0] == Some(xs[0]) && SubsequenceOf(xs[1..], ys[1..])) || SubsequenceOf(xs, ys[1..])
  }

  /** `[email for email in results if email]`: exactly the truthy entries, in order. */
  function KeepTruthy(results: seq<Option<string>>): (kept: seq<string>)
    ensures |kept| == CountTruthy(results) <= |results|
    ensures forall k :: 0 <= k < |kept| ==> kept[k] != ""
    ensures SubsequenceOf(kept, results)
    ensures forall i :: 0 <= i < |results| && Truthy(results[i]) ==> results[i].value in kept
  {
    if results == [] then []
    else if Truthy(results[0]) then
      var tail := KeepTruthy(results[1..]);
      assert ([results[0].value] + tail)[1..] == tail;
      [results[0].value] + tail
    else
      KeepTruthy(results[1..])
  }

  /** `resolve_emails_by_names`: the resolved addresses, in the order of the
      names they came from, with misses dropped. */
  function ResolveEmailsByNames(lookup: string -> UsersResponse, names: seq<string>): (emails: seq<string>)
    ensures |emails| == CountTruthy(ResolveAll(lookup, names)) <= |names|
    ensures forall k :: 0 <= k < |emails| ==> emails[k] != ""
    ensures SubsequenceOf(emails, ResolveAll(lookup, names))
    ensures forall i :: 0 <= i < |names| && Truthy(ResolveEmailByName(lookup, names[i])) ==>
              ResolveEmailByName(lookup, names[i]).value in emails
  {
    var results := ResolveAll(lookup, names);
    assert forall i :: 0 <= i < |names| ==> results[i] == ResolveEmailByName(lookup, names[i]);
    KeepTruthy(results)
  }

  lemma {:induction false} KeepTruthyAppend(a: seq<Option<string>>, b: seq<Option<string>>)
    ensures KeepTruthy(a + b) == KeepTruthy(a) + KeepTruthy(b)
  {
    if a == [] {
      assert a + b == b;
    } else {
      assert (a + b)[0] == a[0];
      assert (a + b)[1..] == a[1..] + b;
      KeepTruthyAppend(a[1..], b);
    }
  }

  /** Resolution distributes over concatenation of name lists: the answers for
      the first names come first. */
  lemma ResolveAppend(lookup: string -> UsersResponse, a: seq<string>, b: seq<string>)
    ensures ResolveEmailsByNames(lookup, a + b)
         == ResolveEmailsByNames(lookup, a) + ResolveEmailsByNames(lookup, b)
  {
    assert ResolveAll(lookup, a + b) == ResolveAll(lookup, a) + ResolveAll(lookup, b);
    KeepTruthyAppend(ResolveAll(lookup, a), ResolveAll(lookup, b));
  }

  /** A name that does not resolve leaves no trace: the result is the same as
      if it had never been listed, and nothing is signalled. */
  lemma UnresolvedNameDropped(lookup: string -> UsersResponse, names: seq<string>, i: nat)
    requires i < |names|
    requires !Truthy(ResolveEmailByName(lookup, names[i]))
    ensures ResolveEmailsByNames(lookup, names)
         == ResolveEmailsByNames(lookup, names[..i] + names[i + 1..])
  {
    assert names == names[..i] + ([names[i]] + names[i + 1..]);
    ResolveAppend(lookup, names[..i], [names[i]] + names[i + 1..]);
    ResolveAppend(lookup, [names[i]], names[i + 1..]);
    ResolveAppend(lookup, names[..i], names[i + 1..]);
    assert ResolveAll(lookup, [names[i]]) == [ResolveEmailByName(lookup, names[i])];
  }

  lemma {:induction false} NoneTruthyKeepsNothing(results: seq<Option<string>>)
    ensures KeepTruthy(results) == [] <==> forall i :: 0 <= i < |results| ==> !Truthy(results[i])
  {
    if results != [] {
      NoneTruthyKeepsNothing(results[1..]);
      if !Truthy(results[0]) {
        forall i | 0 < i < |results| ensures results[i] == results[1..][i - 1] { }
      }
    }
  }

  /** No address comes back exactly when no name resolves. */
  lemma NothingResolvedIff(lookup: string -> UsersResponse, names: seq<string>)
    ensures ResolveEmailsByNames(lookup, names) == []
        <==> forall i :: 0 <= i < |names| ==> !Truthy(ResolveEmailByName(lookup, names[i]))
  {
    NoneTruthyKeepsNothing(ResolveAll(lookup, names));
  }
}
