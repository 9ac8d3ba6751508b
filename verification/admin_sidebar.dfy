/** The account sidebar's display name. */
module AdminSidebar {
  import opened Wrappers
  import opened Text

  /** The name shown when neither the profile nor the email gives one. */
  const DefaultName: string := "Home Buyer"

  /** `full_name || email?.split('@')[0] || 'Home Buyer'`: `fullName` is the
      profile's `full_name` and `email` the account's email, `None` when
      missing. */
  function UserName(fullName: Option<string>, email: Option<string>): (name: string)
    ensures name != ""
    ensures fullName.Some? && fullName.value != "" ==> name == fullName.value
    ensures !(fullName.Some? && fullName.value != "") && email.Some? ==>
              name == (if email.value != "" && email.value[0] != '@' then BeforeFirst(email.value, '@') else DefaultName)
    ensures !(fullName.Some? && fullName.value != "") && email.None? ==> name == DefaultName
  {
    if fullName.Some? && fullName.value != "" then fullName.value
    else if email.Some? && BeforeFirst(email.value, '@') != "" then BeforeFirst(email.value, '@')
    else DefaultName
  }

  /** Without a full name, the name is the part of the email before its
      first '@': a prefix of the email with no '@' in it. */
  lemma NameFromEmail(email: string)
    requires email != "" && email[0] != '@'
    ensures var name := UserName(None, Some(email));
            && name == email[..|name|] && '@' !in name
            && (|name| < |email| ==> email[|name|] == '@')
  {
  }

  /** An email with no '@' is shown whole. */
  lemma EmailWithoutAt(email: string)
    requires email != "" && '@' !in email
    ensures UserName(None, Some(email)) == email
  {
    assert forall i :: 0 <= i < |email| ==> email[i] != '@';
  }
}
