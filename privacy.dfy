/** Sensitive-field handling of `TransactionSecurity` (src/utils/privacy.py). The Fernet
    cipher is modelled as a pair of functions from a key and a string to a string, None
    standing for a raised exception; the key is a parameter. */
module Privacy {
  import opened Wrappers
  import opened Values

  type Key = seq<bv8>

  /** `cipher.encrypt` or `cipher.decrypt` under a key, on the text of a value. */
  type Cipher = (Key, string) -> Option<string>

  const SensitiveFields: set<string> := {"user_id", "wallet_address", "private_key", "api_key"}
  const EncryptableFields: set<string> := {"wallet_address", "private_key"}

  /** `sanitize_transaction_data`: every key not in SensitiveFields, with its value. */
  function SanitizeTransactionData(transaction: Record): (sanitized: Record)
    ensures sanitized.Keys == transaction.Keys - SensitiveFields
    ensures forall k :: k in sanitized ==> sanitized[k] == transaction[k]
  {
    map k | k in transaction && k !in SensitiveFields :: transaction[k]
  }

  /** Sanitizing twice removes nothing more. */
  lemma SanitizeIdempotent(transaction: Record)
    ensures SanitizeTransactionData(SanitizeTransactionData(transaction)) == SanitizeTransactionData(transaction)
  {
  }

  /** Every encryptable field is sensitive, so sanitized data holds none of them. */
  lemma SanitizedHasNoEncryptable(transaction: Record)
    ensures EncryptableFields <= SensitiveFields
    ensures forall k :: k in EncryptableFields ==> k !in SanitizeTransactionData(transaction)
  {
  }

  /** `encrypt_value`: a non-string comes back as it is; a string is replaced by its
      ciphertext, or comes back as it is when encryption fails. */
  function EncryptValue(value: Value, key: Key, encrypt: Cipher): (r: Value)
    ensures !value.VStr? ==> r == value
    ensures value.VStr? && encrypt(key, value.s).Some? ==> r == VStr(encrypt(key, value.s).value)
    ensures value.VStr? && encrypt(key, value.s).None? ==> r == value
  {
    if !value.VStr? then value
    else
      match encrypt(key, value.s)
      case Some(c) => VStr(c)
      case None => value
  }

  /** `decrypt_value`: a string is replaced by its plaintext, or comes back as it is when
      decryption fails. A non-string has no `.encode()`; the exception is caught and the
      value comes back as it is. */
  function DecryptValue(value: Value, key: Key, decrypt: Cipher): (r: Value)
    ensures !value.VStr? ==> r == value
    ensures value.VStr? && decrypt(key, value.s).Some? ==> r == VStr(decrypt(key, value.s).value)
    ensures value.VStr? && decrypt(key, value.s).None? ==> r == value
  {
    if !value.VStr? then value
    else
      match decrypt(key, value.s)
      case Some(p) => VStr(p)
      case None => value
  }

  /** `out` is `transaction` with every present encryptable field passed through `f` and
      every other field untouched: same keys, same other values. */
  ghost predicate FieldsMapped(transaction: Record, out: Record, f: Value -> Value)
  {
    && out.Keys == transaction.Keys
    && (forall k :: k in transaction && k !in EncryptableFields ==> out[k] == transaction[k])
    && (forall k :: k in transaction && k in EncryptableFields ==> out[k] == f(transaction[k]))
  }

  /** `encrypt_sensitive_data`: a copy of the input whose encryptable fields are encrypted,
      one field after the other. The input, a value, is not changed. */
  method EncryptSensitiveData(transaction: Record, key: Key, encrypt: Cipher) returns (encrypted: Record)
    ensures encrypted.Keys == transaction.Keys
    ensures forall k :: k in transaction && k !in EncryptableFields ==> encrypted[k] == transaction[k]
    ensures forall k :: k in transaction && k in EncryptableFields ==>
      encrypted[k] == EncryptValue(transaction[k], key, encrypt)
  {
    encrypted := transaction;
    var pending := EncryptableFields;
    while pending != {}
      invariant pending <= EncryptableFields
      invariant encrypted.Keys == transaction.Keys
      invariant forall k :: k in transaction && (k !in EncryptableFields || k in pending) ==>
        encrypted[k] == transaction[k]
      invariant forall k :: k in transaction && k in EncryptableFields - pending ==>
        encrypted[k] == EncryptValue(transaction[k], key, encrypt)
      decreases pending
    {
      var field :| field in pending;
      if field in encrypted {
        encrypted := encrypted[field := EncryptValue(encrypted[field], key, encrypt)];
      }
      pending := pending - {field};
    }
  }

  /** `decrypt_sensitive_data`: the same loop with `decrypt_value`. */
  method DecryptSensitiveData(transaction: Record, key: Key, decrypt: Cipher) returns (decrypted: Record)
    ensures decrypted.Keys == transaction.Keys
    ensures forall k :: k in transaction && k !in EncryptableFields ==> decrypted[k] == transaction[k]
    ensures forall k :: k in transaction && k in EncryptableFields ==>
      decrypted[k] == DecryptValue(transaction[k], key, decrypt)
  {
    decrypted := transaction;
    var pending := EncryptableFields;
    while pending != {}
      invariant pending <= EncryptableFields
      invariant decrypted.Keys == transaction.Keys
      invariant forall k :: k in transaction && (k !in EncryptableFields || k in pending) ==>
        decrypted[k] == transaction[k]
      invariant forall k :: k in transaction && k in EncryptableFields - pending ==>
        decrypted[k] == DecryptValue(transaction[k], key, decrypt)
      decreases pending
    {
      var field :| field in pending;
      if field in decrypted {
        decrypted := decrypted[field := DecryptValue(decrypted[field], key, decrypt)];
      }
      pending := pending - {field};
    }
  }

  /** Under `key`, decryption undoes every successful encryption, and where encryption fails
      (leaving the plaintext in place) decryption of that plaintext fails too or gives it back. */
  ghost predicate Inverts(encrypt: Cipher, decrypt: Cipher, key: Key)
  {
    forall s ::
      && (encrypt(key, s).Some? ==> decrypt(key, encrypt(key, s).value) == Some(s))
      && (encrypt(key, s).None? ==> decrypt(key, s).None? || decrypt(key, s) == Some(s))
  }

  /** Decrypting the one value an encryption produced gives the original value back:
      the ciphertext decrypts to the plaintext, and a plaintext left in place by a failed
      encryption survives its decryption. */
  lemma ValueRoundTrip(value: Value, key: Key, encrypt: Cipher, decrypt: Cipher)
    requires Inverts(encrypt, decrypt, key)
    ensures DecryptValue(EncryptValue(value, key, encrypt), key, decrypt) == value
  {
    if value.VStr? {
      if encrypt(key, value.s).Some? {
        assert decrypt(key, encrypt(key, value.s).value) == Some(value.s);
      } else {
        assert decrypt(key, value.s).None? || decrypt(key, value.s) == Some(value.s);
      }
    }
  }

  /** The field-wise round trip: when the cipher's decryption inverts its encryption,
      decrypting what `encrypt_sensitive_data` produced gives back the original record. */
  lemma RecordRoundTrip(transaction: Record, encrypted: Record, decrypted: Record,
                        key: Key, encrypt: Cipher, decrypt: Cipher)
    requires Inverts(encrypt, decrypt, key)
    requires FieldsMapped(transaction, encrypted, v => EncryptValue(v, key, encrypt))
    requires FieldsMapped(encrypted, decrypted, v => DecryptValue(v, key, decrypt))
    ensures decrypted == transaction
  {
    forall k | k in transaction
      ensures decrypted[k] == transaction[k]
    {
      if k in EncryptableFields {
        ValueRoundTrip(transaction[k], key, encrypt, decrypt);
      }
    }
  }

  /** The two methods combined: decrypting an encryption restores the record. */
  method EncryptThenDecrypt(transaction: Record, key: Key, encrypt: Cipher, decrypt: Cipher)
    returns (restored: Record)
    requires Inverts(encrypt, decrypt, key)
    ensures restored == transaction
  {
    var encrypted := EncryptSensitiveData(transaction, key, encrypt);
    restored := DecryptSensitiveData(encrypted, key, decrypt);
    RecordRoundTrip(transaction, encrypted, restored, key, encrypt, decrypt);
  }
}
