/** What a stored value says to its reader. */
module StoredValues {
  import opened Options
  import opened Encryption
  import opened Text
  import opened Catalog
  import opened CatalogModes

  // With E2EE a name is stored as sent; else it is at rest and decrypts to its normal form
  ghost predicate SaysName(env: Env, on: bool, u: UserId, stored: string, name: string) {
    if on then stored == name
    else AtRest(env.cipher, u, stored) && env.cipher.dec(u, stored) == Some(TitleCase(env.alphabet, name))
  }

  // A description is not normalised
  ghost predicate SaysText(env: Env, on: bool, u: UserId, stored: string, text: string) {
    if on then stored == text else AtRest(env.cipher, u, stored) && env.cipher.dec(u, stored) == Some(text)
  }

  // An index is kept under E2EE alone
  predicate KeepsIndex(on: bool, stored: Option<string>, sent: Option<string>) {
    stored == if on then sent else None
  }

  lemma EncSays(env: Env, u: UserId, text: string)
    requires Sound(env.cipher)
    ensures SaysText(env, false, u, env.cipher.enc(u, text), text)
    ensures SaysName(env, false, u, env.cipher.enc(u, TitleCase(env.alphabet, text)), text)
  {
    EncIsAtRest(env.cipher, u, text);
    EncIsAtRest(env.cipher, u, TitleCase(env.alphabet, text));
  }

  // One name is stored in one way
  lemma SayingIsOne(env: Env, on: bool, u: UserId, a: string, b: string, name: string)
    requires SaysName(env, on, u, a, name) && SaysName(env, on, u, b, name)
    ensures a == b
  {
  }
}
