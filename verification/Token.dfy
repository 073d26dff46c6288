/** Request tokens and snapshot grants over symbolic authenticated encryption. */
module Token {
  import opened Kube
  import opened Terms

  const EMPTY_KEY := "token: key must not be empty"

  function Decrypt(key: string, b: Blob): Result<Plain> {
    if key == "" then Err(EMPTY_KEY)
    else if b.Raw? then Err("token: decode")
    else if b.key != key then Err("token: decryption failed")
    else Ok(b.plain)
  }

  /** Mint; the random nonce is an argument. */
  function Mint(key: string, c: Claims, iv: string): Result<Blob> {
    if key == "" then Err(EMPTY_KEY) else Ok(Sealed(key, Random(iv), PlainClaims(c)))
  }

  function Open(key: string, token: Blob): Result<Claims> {
    match Decrypt(key, token)
    case Err(e) => Err(e)
    case Ok(PlainText(_)) => Err("token: unmarshal claims")
    case Ok(PlainClaims(c)) => Ok(c)
  }

  function EncryptString(key: string, text: Blob): Result<Blob> {
    if key == "" then Err(EMPTY_KEY) else Ok(Sealed(key, Derived(key, text), PlainText(text)))
  }

  /** DecryptString; the text of claims is no Snapshot name and reads as the empty string here. */
  function DecryptString(key: string, b: Blob): Result<Blob> {
    match Decrypt(key, b)
    case Err(e) => Err(e)
    case Ok(PlainText(t)) => Ok(t)
    case Ok(PlainClaims(_)) => Ok(Raw(""))
  }

  /** Verify: expiry, identity, payload binding, nonce, in this order. */
  function Verify(c: Claims, now: int, sidekick: string, namespace: string, binding: Binding): (r: Result<()>)
    ensures r.Ok? <==>
            && c.expiresAt != 0 && now < c.expiresAt
            && c.sidekickName == sidekick && c.namespace == namespace
            && c.binding == binding != BindingText("") && c.nonce != ""
  {
    if c.expiresAt == 0 || now >= c.expiresAt then Err("token: expired")
    else if c.sidekickName != sidekick || c.namespace != namespace then Err("token: identity mismatch")
    else if c.binding == BindingText("") || c.binding != binding then Err("token: payload binding mismatch")
    else if c.nonce == "" then Err("token: missing nonce")
    else Ok(())
  }

  /** A minted token opens to its claims under the minting key, and under no other. */
  lemma TokenRoundTrip(key: string, other: string, c: Claims, iv: string)
    requires key != ""
    ensures Mint(key, c, iv).Ok?
    ensures Open(other, Mint(key, c, iv).value) == Ok(c) <==> other == key
  {
  }

  /** A grant decrypts to its text under its key, and under no other key to anything. Grants are
      deterministic and different for different keys or texts. */
  lemma GrantRoundTrip(key: string, other: string, text: Blob, text': Blob)
    requires key != "" && other != ""
    ensures EncryptString(key, text).Ok?
    ensures DecryptString(other, EncryptString(key, text).value).Ok? <==> other == key
    ensures DecryptString(key, EncryptString(key, text).value) == Ok(text)
    ensures EncryptString(key, text) == EncryptString(other, text') <==> key == other && text == text'
  {
  }
}
