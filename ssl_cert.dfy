/** The bookkeeping of the self-signed HTTPS certificate (`SSLCertificate`):
    expiry and renewal arithmetic, the copy kept in the "ssl_cert" flash
    namespace, and the control flow that decides when a new certificate is
    generated. Key and certificate generation are an input that either
    yields two PEM texts or fails.

    The timestamps are `unsigned long`, 32 bits wide on the ESP32. The
    word width is a parameter here: `W32` is the firmware as written, and
    `W64` is the same code with 64-bit timestamps, which is what a one-year
    validity evidently needs (see `FreshCertificateExpiringSoon` and
    `FreshCertificateLasts`). */
module SslCert {
  import opened Optional

  datatype Width = W32 | W64

  function Modulus(w: Width): nat
  {
    if w == W32 then 0x1_0000_0000 else 0x1_0000_0000_0000_0000
  }

  /** `x` is representable in the timestamp type. */
  predicate Fits(x: int, w: Width)
  {
    0 <= x < Modulus(w)
  }

  const CERT_VALIDITY_DAYS: nat := 365
  /** One day in milliseconds. */
  const DAY_MS: nat := 24 * 60 * 60 * 1000
  /** Renew 30 days (in seconds) before expiry. */
  const RENEWAL_THRESHOLD: nat := 30 * 24 * 60 * 60
  const RENEWAL_MS: nat := RENEWAL_THRESHOLD * 1000

  /** `expiry - now` in the timestamp type. */
  function Until(expiry: int, now: int, w: Width): (d: int)
    requires Fits(expiry, w) && Fits(now, w)
    ensures Fits(d, w)
    ensures now <= expiry ==> d == expiry - now
    ensures expiry < now ==> d == expiry - now + Modulus(w)
  {
    (expiry - now) % Modulus(w)
  }

  /** The validity period in milliseconds as the timestamp type holds it:
      in 32 bits the 365-day product wraps to about 17 days. */
  function ValidityMs(w: Width): (v: int)
    ensures Fits(v, w)
    ensures w == W32 ==> v == 1_471_228_928
    ensures w == W64 ==> v == CERT_VALIDITY_DAYS * DAY_MS
  {
    (CERT_VALIDITY_DAYS * DAY_MS) % Modulus(w)
  }

  /** The expiry stamped on a certificate generated at `now`. */
  function GeneratedExpiry(now: int, w: Width): (e: int)
    requires Fits(now, w)
    ensures Fits(e, w)
    ensures now + ValidityMs(w) < Modulus(w) ==> e == now + ValidityMs(w)
    ensures now + ValidityMs(w) >= Modulus(w) ==> e == now + ValidityMs(w) - Modulus(w)
  {
    (now + ValidityMs(w)) % Modulus(w)
  }

  /** `checkCertificateExpiry`: an expiry is set and lies ahead. */
  predicate Unexpired(expiry: int, now: int)
  {
    expiry != 0 && now < expiry
  }

  /** `isExpiringSoon`: no expiry is set, or less than the renewal
      threshold remains (counted in the timestamp type). */
  predicate ExpiringSoon(expiry: int, now: int, w: Width)
    requires Fits(expiry, w) && Fits(now, w)
    ensures Unexpired(expiry, now) ==> (ExpiringSoon(expiry, now, w) <==> expiry - now < RENEWAL_MS)
  {
    expiry == 0 || Until(expiry, now, w) < RENEWAL_MS
  }

  /** `getDaysUntilExpiry`: whole days left, or 0 when unset or past. */
  function DaysUntilExpiry(expiry: int, now: int, w: Width): (d: int)
    requires Fits(expiry, w) && Fits(now, w)
    ensures d >= 0
    ensures !Unexpired(expiry, now) ==> d == 0
    ensures Unexpired(expiry, now) ==> d * DAY_MS <= expiry - now < (d + 1) * DAY_MS
  {
    if expiry == 0 then 0
    else if now >= expiry then 0
    else Until(expiry, now, w) / DAY_MS
  }

  /** A whole-day count below 30 means less than 30 days of milliseconds. */
  lemma DaysBelowThirty(r: int, d: int)
    requires 0 <= r && 0 <= d
    requires d * DAY_MS <= r < (d + 1) * DAY_MS
    ensures d < 30 <==> r < RENEWAL_MS
  {
    if d < 30 {
      assert (d + 1) * DAY_MS <= 30 * DAY_MS;
    } else {
      assert 30 * DAY_MS <= d * DAY_MS;
    }
  }

  /** While a certificate is unexpired, "expiring soon" and "fewer than 30
      days left" agree, in either width. */
  lemma ExpiringSoonIffUnderThirtyDays(expiry: int, now: int, w: Width)
    requires Fits(expiry, w) && Fits(now, w)
    requires Unexpired(expiry, now)
    ensures ExpiringSoon(expiry, now, w) <==> DaysUntilExpiry(expiry, now, w) < 30
  {
    DaysBelowThirty(expiry - now, DaysUntilExpiry(expiry, now, w));
  }

  /** As written (32 bits): every freshly generated certificate is already
      "expiring soon", because only about 17 days of validity survive the
      wrap-around, less than the 30-day renewal threshold. */
  lemma FreshCertificateExpiringSoon(now: int)
    requires Fits(now, W32)
    ensures ExpiringSoon(GeneratedExpiry(now, W32), now, W32)
  {
    var e := GeneratedExpiry(now, W32);
    if e != 0 {
      assert Until(e, now, W32) == ValidityMs(W32);
    }
  }

  /** As written (32 bits): in the last 17 days before the millisecond
      counter wraps, a freshly generated certificate is already expired. */
  lemma FreshCertificateWrapsExpired(now: int)
    requires Fits(now, W32)
    requires now >= Modulus(W32) - ValidityMs(W32)
    ensures !Unexpired(GeneratedExpiry(now, W32), now)
  {
  }

  /** With 64-bit timestamps a fresh certificate is unexpired, not expiring
      soon, and has 365 days left. */
  lemma FreshCertificateLasts(now: int)
    requires Fits(now, W64)
    requires now + CERT_VALIDITY_DAYS * DAY_MS < Modulus(W64)
    ensures var e := GeneratedExpiry(now, W64);
            Unexpired(e, now) && !ExpiringSoon(e, now, W64) && DaysUntilExpiry(e, now, W64) == 365
  {
    var e := GeneratedExpiry(now, W64);
    assert e - now == 365 * DAY_MS;
    assert Until(e, now, W64) / DAY_MS == 365;
  }

  // ---------------------------------------------------------------------------
  // The "ssl_cert" flash namespace
  // ---------------------------------------------------------------------------

  datatype CertKey = CertPem | KeyPem | Expiry

  /** Preferences values are typed; a read of the wrong type yields the
      default. */
  datatype CertValue = Text(s: string) | Number(n: nat)

  type Prefs = map<CertKey, CertValue>

  /** A certificate held in memory. */
  datatype Cert = Cert(pem: string, key: string, expiry: int)

  /** What `createX509Certificate` hands back on success. */
  datatype Generated = Generated(pem: string, key: string)

  function TextAt(p: Prefs, k: CertKey): string
  {
    if k in p && p[k].Text? then p[k].s else ""
  }

  /** `getULong64` read into an `unsigned long`: truncated to the width. */
  function NumberAt(p: Prefs, k: CertKey, w: Width): (n: int)
    ensures Fits(n, w)
  {
    if k in p && p[k].Number? then p[k].n % Modulus(w) else 0
  }

  /** What `loadStoredCertificate` reads: nothing when a key is missing,
      otherwise the three stored values. */
  function StoredCert(p: Prefs, w: Width): (c: Option<Cert>)
    ensures c.None? <==> !(CertPem in p && KeyPem in p && Expiry in p)
    ensures c.Some? ==> Fits(c.value.expiry, w)
  {
    if CertPem in p && KeyPem in p && Expiry in p then
      Some(Cert(TextAt(p, CertPem), TextAt(p, KeyPem), NumberAt(p, Expiry, w)))
    else None
  }

  /** A loaded certificate is accepted when both texts and the expiry are set. */
  predicate Usable(c: Cert)
  {
    c.pem != "" && c.key != "" && c.expiry > 0
  }

  function SavedPrefs(p: Prefs, c: Cert): (q: Prefs)
    requires c.expiry >= 0
    ensures q.Keys == p.Keys + {CertPem, KeyPem, Expiry}
  {
    p[CertPem := Text(c.pem)][KeyPem := Text(c.key)][Expiry := Number(c.expiry)]
  }

  function ClearedPrefs(p: Prefs): (q: Prefs)
    ensures q.Keys == p.Keys - {CertPem, KeyPem, Expiry}
  {
    p - {CertPem, KeyPem, Expiry}
  }

  /** Loading what was saved gives back the same certificate. */
  lemma LoadSaved(p: Prefs, c: Cert, w: Width)
    requires Fits(c.expiry, w)
    ensures StoredCert(SavedPrefs(p, c), w) == Some(c)
  {
  }

  /** After a clear, nothing can be loaded. */
  lemma LoadCleared(p: Prefs, w: Width)
    ensures StoredCert(ClearedPrefs(p), w) == None
  {
  }

  /** `initialize` keeps the stored certificate: all three keys are present,
      it is usable and it has not expired. */
  predicate KeepsStored(p: Prefs, now: int, w: Width)
  {
    StoredCert(p, w).Some? && Usable(StoredCert(p, w).value) &&
    Unexpired(StoredCert(p, w).value.expiry, now)
  }

  class SslCertificate {
    const width: Width
    var certificatePem: string
    var privateKeyPem: string
    var expiryTime: int
    var certificateValid: bool
    var preferences: Prefs

    ghost predicate Valid()
      reads this
    {
      Fits(expiryTime, width)
    }

    function Current(): Cert
      reads this
    {
      Cert(certificatePem, privateKeyPem, expiryTime)
    }

    /** A fresh object over the namespace's current contents. */
    constructor(w: Width, flash: Prefs)
      ensures Valid()
      ensures width == w && preferences == flash
      ensures Current() == Cert("", "", 0) && !certificateValid
    {
      width := w;
      certificatePem := "";
      privateKeyPem := "";
      expiryTime := 0;
      certificateValid := false;
      preferences := flash;
    }

    predicate CheckCertificateExpiry(now: int)
      reads this
    {
      Unexpired(expiryTime, now)
    }

    predicate IsExpiringSoon(now: int)
      requires Valid() && Fits(now, width)
      reads this
      ensures expiryTime == 0 ==> IsExpiringSoon(now)
      ensures CheckCertificateExpiry(now) ==> (IsExpiringSoon(now) <==> GetDaysUntilExpiry(now) < 30)
    {
      ExpiringSoon(expiryTime, now, width)
    }

    function GetDaysUntilExpiry(now: int): (d: int)
      requires Valid() && Fits(now, width)
      reads this
      ensures d >= 0
      ensures !CheckCertificateExpiry(now) ==> d == 0
      ensures CheckCertificateExpiry(now) ==> d * DAY_MS <= expiryTime - now < (d + 1) * DAY_MS
    {
      DaysUntilExpiry(expiryTime, now, width)
    }

    /** `isValid`: flagged valid and not yet expired. */
    predicate IsValid(now: int)
      reads this
    {
      certificateValid && CheckCertificateExpiry(now)
    }

    method LoadStoredCertificate() returns (ok: bool)
      requires Valid()
      modifies this`certificatePem, this`privateKeyPem, this`expiryTime
      ensures Valid()
      ensures StoredCert(preferences, width).None? ==> !ok && Current() == old(Current())
      ensures StoredCert(preferences, width).Some? ==>
                Current() == StoredCert(preferences, width).value && ok == Usable(Current())
    {
      if !(CertPem in preferences && KeyPem in preferences && Expiry in preferences) {
        return false;
      }
      certificatePem := TextAt(preferences, CertPem);
      privateKeyPem := TextAt(preferences, KeyPem);
      expiryTime := NumberAt(preferences, Expiry, width);
      ok := certificatePem != "" && privateKeyPem != "" && expiryTime > 0;
    }

    method SaveCertificateToFlash() returns (ok: bool)
      requires Valid()
      modifies this`preferences
      ensures ok <==> certificatePem != "" && privateKeyPem != ""
      ensures preferences == if ok then SavedPrefs(old(preferences), Current()) else old(preferences)
    {
      if certificatePem == "" || privateKeyPem == "" {
        return false;
      }
      preferences := preferences[CertPem := Text(certificatePem)];
      preferences := preferences[KeyPem := Text(privateKeyPem)];
      preferences := preferences[Expiry := Number(expiryTime)];
      ok := true;
    }

    method ClearStoredCertificate() returns (ok: bool)
      modifies this
      ensures Valid()
      ensures ok
      ensures preferences == ClearedPrefs(old(preferences))
      ensures Current() == Cert("", "", 0) && !certificateValid
    {
      preferences := ClearedPrefs(preferences);
      certificatePem := "";
      privateKeyPem := "";
      expiryTime := 0;
      certificateValid := false;
      ok := true;
    }

    /** Installs a generated key pair, or changes nothing when generation
        failed. */
    method GenerateNewCertificate(now: int, gen: Option<Generated>) returns (ok: bool)
      requires Valid() && Fits(now, width)
      modifies this`certificatePem, this`privateKeyPem, this`expiryTime
      ensures Valid()
      ensures ok <==> gen.Some?
      ensures !ok ==> Current() == old(Current())
      ensures ok ==> Current() == Cert(gen.value.pem, gen.value.key, GeneratedExpiry(now, width))
    {
      if gen.None? {
        return false;
      }
      certificatePem := gen.value.pem;
      privateKeyPem := gen.value.key;
      expiryTime := GeneratedExpiry(now, width);
      ok := true;
    }

    /** `now` is the clock reading of the expiry check and `genNow` the later
        one that stamps a newly generated certificate. */
    method EnsureValidCertificate(now: int, genNow: int, gen: Option<Generated>) returns (ok: bool)
      requires Valid() && Fits(now, width) && Fits(genNow, width)
      modifies this
      ensures Valid()
      // A valid certificate that is not expiring soon is kept as it is.
      ensures old(certificateValid) && !old(IsExpiringSoon(now)) ==> ok && unchanged(this)
      // Otherwise a failed generation changes nothing and reports failure...
      ensures !(old(certificateValid) && !old(IsExpiringSoon(now))) && gen.None? ==>
                !ok && unchanged(this)
      // ...and a successful one installs the new pair, saves it when both
      // texts are non-empty, and marks the certificate valid either way.
      ensures !(old(certificateValid) && !old(IsExpiringSoon(now))) && gen.Some? ==>
                ok && certificateValid &&
                Current() == Cert(gen.value.pem, gen.value.key, GeneratedExpiry(genNow, width)) &&
                preferences == (if gen.value.pem != "" && gen.value.key != ""
                                then SavedPrefs(old(preferences), Current())
                                else old(preferences))
    {
      if certificateValid && !IsExpiringSoon(now) {
        return true;
      }
      ok := GenerateNewCertificate(genNow, gen);
      if !ok {
        return;
      }
      var _ := SaveCertificateToFlash();
      certificateValid := true;
    }

    /** Regenerates exactly when `ensureValidCertificate` would. */
    method RegenerateIfNeeded(now: int, genNow: int, gen: Option<Generated>)
      requires Valid() && Fits(now, width) && Fits(genNow, width)
      modifies this
      ensures Valid()
      ensures old(certificateValid) && !old(IsExpiringSoon(now)) ==> unchanged(this)
      ensures !(old(certificateValid) && !old(IsExpiringSoon(now))) && gen.None? ==> unchanged(this)
      ensures !(old(certificateValid) && !old(IsExpiringSoon(now))) && gen.Some? ==>
                certificateValid &&
                Current() == Cert(gen.value.pem, gen.value.key, GeneratedExpiry(genNow, width)) &&
                preferences == (if gen.value.pem != "" && gen.value.key != ""
                                then SavedPrefs(old(preferences), Current())
                                else old(preferences))
    {
      if !certificateValid || IsExpiringSoon(now) {
        var _ := EnsureValidCertificate(now, genNow, gen);
      }
    }

    /** Opens the namespace, keeps a stored certificate that is still
        unexpired, and otherwise falls back to `ensureValidCertificate`. */
    method Initialize(nsOpened: bool, now: int, genNow: int, gen: Option<Generated>) returns (ok: bool)
      requires Valid() && Fits(now, width) && Fits(genNow, width)
      modifies this
      ensures Valid()
      ensures !nsOpened ==> !ok && unchanged(this)
      ensures nsOpened && KeepsStored(old(preferences), now, width) ==>
                ok && certificateValid && Current() == StoredCert(old(preferences), width).value &&
                preferences == old(preferences)
      // On a first start (nothing marked valid yet) without a usable stored
      // certificate, the outcome is that of generation.
      ensures nsOpened && !KeepsStored(old(preferences), now, width) && !old(certificateValid) ==>
                (ok <==> gen.Some?) &&
                (gen.Some? ==> certificateValid &&
                               Current() == Cert(gen.value.pem, gen.value.key, GeneratedExpiry(genNow, width)) &&
                               preferences == (if gen.value.pem != "" && gen.value.key != ""
                                               then SavedPrefs(old(preferences), Current())
                                               else old(preferences)))
    {
      if !nsOpened {
        return false;
      }
      var loaded := LoadStoredCertificate();
      if loaded && CheckCertificateExpiry(now) {
        certificateValid := true;
        return true;
      }
      ok := EnsureValidCertificate(now, genNow, gen);
    }
  }

}
