/** What the binding flow keeps in the shared cache. */
module BindingData {
  import opened Prelude
  import CustomerService

  /** Encryption taken symbolically: a sealed value opens to its plaintext and to nothing else. */
  datatype Cipher = Sealed(nonce: nat, plain: string)

  /** `encryptIfNeeded`: an empty value has no ciphertext. */
  function EncryptIfNeeded(plain: string, nonce: nat): Option<Cipher>
  {
    if plain == "" then None else Some(Sealed(nonce, plain))
  }

  function DecryptIfNeeded(c: Option<Cipher>): Option<string>
  {
    match c case None => None case Some(Sealed(_, plain)) => Some(plain)
  }

  datatype BindingEntry = BindingEntry(cipher: Option<Cipher>, ref: string, verifiedAt: nat)

  datatype Value =
    | Counter(n: nat, since: nat)
    | Flag
    | Init(result: CustomerService.ResolveResult)
    | Binding(entry: BindingEntry)
    | Other(data: string)   // written by another flow
}
