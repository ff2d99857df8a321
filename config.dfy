/** The configuration check at the start of PIN recovery: which of the four
    mail-service settings are missing from the environment, in their fixed order. */
module Config {

  /** The settings PIN recovery needs, in the order it checks and reports them. */
  const MailKeys: seq<string> :=
    ["EMAILJS_SERVICE_ID", "EMAILJS_TEMPLATE_ID", "EMAILJS_PUBLIC_KEY", "EMAILJS_PRIVATE_KEY"]

  /** `!process.env[key]`: the variable is absent or holds the empty string. */
  predicate Unset(env: map<string, string>, key: string)
  {
    key !in env || env[key] == ""
  }

  /** `a` is `b` with some elements left out, the rest in their original order. */
  ghost predicate IsSubsequence(a: seq<string>, b: seq<string>)
    decreases |b|
  {
    if b == [] then a == []
    else
      IsSubsequence(a, b[..|b| - 1]) ||
      (a != [] && a[|a| - 1] == b[|b| - 1] && IsSubsequence(a[..|a| - 1], b[..|b| - 1]))
  }

  /** The keys of `keys` that are unset, in order: exactly the unset ones, and an
      in-order sublist of `keys`. */
  function MissingKeys(env: map<string, string>, keys: seq<string>): (r: seq<string>)
    ensures forall k :: k in r <==> k in keys && Unset(env, k)
    ensures IsSubsequence(r, keys)
    ensures |r| <= |keys|
  {
    if keys == [] then []
    else
      var init := MissingKeys(env, keys[..|keys| - 1]);
      var last := keys[|keys| - 1];
      assert keys == keys[..|keys| - 1] + [last];
      if Unset(env, last) then
        assert (init + [last])[..|init|] == init;
        init + [last]
      else init
  }

  /** The `forEach` that pushes every unset setting onto `missingVars`. */
  method CollectMissing(env: map<string, string>) returns (missing: seq<string>)
    ensures missing == MissingKeys(env, MailKeys)
    ensures missing == [] <==> forall k :: k in MailKeys ==> k in env && env[k] != ""
  {
    missing := [];
    for i := 0 to |MailKeys|
      invariant missing == MissingKeys(env, MailKeys[..i])
    {
      assert MailKeys[..i + 1][..i] == MailKeys[..i];
      if Unset(env, MailKeys[i]) {
        missing := missing + [MailKeys[i]];
      }
    }
    assert MailKeys[..|MailKeys|] == MailKeys;
    if missing != [] {
      assert missing[0] in missing;
    }
  }

  /** `parts.join(sep)`. */
  function Join(parts: seq<string>, sep: string): (r: string)
    ensures parts == [] ==> r == ""
    ensures |parts| == 1 ==> r == parts[0]
    ensures parts != [] ==> parts[0] <= r && |r| == TotalLength(parts) + (|parts| - 1) * |sep|
  {
    if |parts| == 0 then ""
    else if |parts| == 1 then parts[0]
    else parts[0] + sep + Join(parts[1..], sep)
  }

  /** Joining one more part appends the separator and that part: with the one-part
      case this builds the joined text from the other end, part by part in order. */
  lemma {:induction false} JoinSnoc(parts: seq<string>, x: string, sep: string)
    requires parts != []
    ensures Join(parts + [x], sep) == Join(parts, sep) + sep + x
  {
    if |parts| > 1 {
      assert (parts + [x])[1..] == parts[1..] + [x];
      JoinSnoc(parts[1..], x, sep);
    }
  }

  /** The summed length of `parts`. */
  function TotalLength(parts: seq<string>): (n: nat)
  {
    if parts == [] then 0 else |parts[0]| + TotalLength(parts[1..])
  }

  /** The error shown when settings are missing: the fixed lead-in, then the names
      separated by ", ". */
  function MisconfiguredMessage(missing: seq<string>): (r: string)
    ensures "Server misconfigured. Missing: " <= r
    ensures missing == [] ==> r == "Server misconfigured. Missing: "
    ensures |missing| == 1 ==> r == "Server misconfigured. Missing: " + missing[0]
    // each further name follows the previous ones after ", ", in list order
    ensures |missing| >= 2 ==>
      r == MisconfiguredMessage(missing[..|missing| - 1]) + ", " + missing[|missing| - 1]
    ensures |r| == 31 + TotalLength(missing) + (if missing == [] then 0 else (|missing| - 1) * 2)
  {
    if |missing| >= 2 then
      assert missing == missing[..|missing| - 1] + [missing[|missing| - 1]];
      JoinSnoc(missing[..|missing| - 1], missing[|missing| - 1], ", ");
      "Server misconfigured. Missing: " + Join(missing, ", ")
    else
      "Server misconfigured. Missing: " + Join(missing, ", ")
  }
}
