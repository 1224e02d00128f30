/**
 * The privacy components of `examples/privacy_manager_example.py`: the audit log and the
 * optional encryption of `PrivacyManager`, the plugin permission grants of
 * `PermissionController`, and the opt-in analytics of `AnalyticsManager`.
 *
 * The Fernet cipher, SHA-256, the clock and the console prompt are parameters: `cipher` and
 * `decipher` stand for `Fernet.encrypt`/`decrypt` with the manager's key (`decipher` gives `None`
 * where Fernet raises), `digest` for the SHA-256 hex digest of `str(value)`, `now` for the
 * timestamp, and `answer` for what the user types at the approval prompt.
 */
module PrivacyExample {
  import opened Wrappers
  import opened Seqs
  import opened Strings
  import opened Values
  import opened Utf8

  datatype AuditEntry = AuditEntry(timestamp: string, action: string, details: map<string, Value>)

  /** What `encrypt_data` returns: the UTF-8 bytes, passed through the cipher when encryption is on. */
  function Encrypted(encryptionEnabled: bool, cipher: seq<Byte> -> seq<Byte>, data: string): (r: seq<Byte>)
    ensures !encryptionEnabled ==> Decode(r) == Some(data) && |data| <= |r| <= 4 * |data|
  {
    if encryptionEnabled then cipher(Encode(data))
    else
      DecodeEncode(data);
      Encode(data)
  }

  /**
   * What `decrypt_data` returns: the bytes (deciphered when encryption is on) decoded as UTF-8;
   * `None` where Python raises, for a token the cipher rejects or bytes that are not UTF-8.
   */
  function Decrypted(encryptionEnabled: bool, decipher: seq<Byte> -> Option<seq<Byte>>, data: seq<Byte>): (r: Option<string>)
    ensures encryptionEnabled && decipher(data).None? ==> r.None?
    ensures !encryptionEnabled ==> forall s :: data == Encode(s) ==> r == Some(s)
    ensures encryptionEnabled ==> forall s :: decipher(data) == Some(Encode(s)) ==> r == Some(s)
  {
    assert forall s :: Decode(Encode(s)) == Some(s) by {
      forall s {
        DecodeEncode(s);
      }
    }
    if !encryptionEnabled then Decode(data)
    else
      match decipher(data)
      case None => None
      case Some(plain) => Decode(plain)
  }

  /**
   * Decrypting what was encrypted gives back the text: with encryption off for every string,
   * with it on whenever the cipher's decryption undoes its encryption.
   */
  lemma EncryptDecryptRoundTrip(encryptionEnabled: bool, cipher: seq<Byte> -> seq<Byte>,
                                decipher: seq<Byte> -> Option<seq<Byte>>, data: string)
    requires encryptionEnabled ==> decipher(cipher(Encode(data))) == Some(Encode(data))
    ensures Decrypted(encryptionEnabled, decipher, Encrypted(encryptionEnabled, cipher, data)) == Some(data)
  {
    DecodeEncode(data);
  }

  class PrivacyManager {
    /** `config.get("encryption_at_rest", True)`. */
    const encryptionEnabled: bool
    /** `config.get("audit_log", {}).get("enabled", True)`. */
    const auditEnabled: bool
    var auditLog: seq<AuditEntry>

    constructor (encryptionAtRest: Option<bool>, auditEnabled: Option<bool>)
      ensures encryptionEnabled == encryptionAtRest.GetOr(true)
      ensures this.auditEnabled == auditEnabled.GetOr(true)
      ensures auditLog == []
    {
      encryptionEnabled := encryptionAtRest.GetOr(true);
      this.auditEnabled := auditEnabled.GetOr(true);
      auditLog := [];
    }

    /** `_log_audit`: exactly one entry appended when auditing is on, nothing when it is off. */
    method LogAudit(action: string, details: map<string, Value>, now: string)
      modifies this
      ensures auditLog == old(auditLog) + (if auditEnabled then [AuditEntry(now, action, details)] else [])
    {
      if !auditEnabled {
        return;
      }
      auditLog := auditLog + [AuditEntry(now, action, details)];
    }

    /** `encrypt_data`: the encrypted bytes; only the encrypting path writes to the audit log. */
    method EncryptData(data: string, cipher: seq<Byte> -> seq<Byte>, now: string) returns (out: seq<Byte>)
      modifies this
      ensures out == Encrypted(encryptionEnabled, cipher, data)
      ensures auditLog == old(auditLog) +
                (if encryptionEnabled && auditEnabled then [AuditEntry(now, "data_encrypted", map["size" := Int(|data|)])] else [])
    {
      if !encryptionEnabled {
        return Encode(data);
      }
      out := cipher(Encode(data));
      LogAudit("data_encrypted", map["size" := Int(|data|)], now);
    }

    /**
     * `decrypt_data`: the decoded text, or `None` where Python raises (then nothing is logged);
     * only a successful decryption writes to the audit log.
     */
    method DecryptData(data: seq<Byte>, decipher: seq<Byte> -> Option<seq<Byte>>, now: string) returns (text: Option<string>)
      modifies this
      ensures text == Decrypted(encryptionEnabled, decipher, data)
      ensures auditLog == old(auditLog) +
                (if encryptionEnabled && auditEnabled && text.Some?
                 then [AuditEntry(now, "data_decrypted", map["size" := Int(|text.value|)])] else [])
    {
      if !encryptionEnabled {
        return Decode(data);
      }
      var plain := decipher(data);
      if plain.None? {
        return None;
      }
      text := Decode(plain.value);
      if text.None? {
        return;
      }
      LogAudit("data_decrypted", map["size" := Int(|text.value|)], now);
    }
  }

  /** The audit details of a permission decision. */
  function PermissionDetails(pluginId: string, permission: string): map<string, Value> {
    map["plugin_id" := Str(pluginId), "permission" := Str(permission)]
  }

  /** The permissions a plugin holds in `granted` (none when it has no entry). */
  function Permissions(granted: map<string, seq<string>>, pluginId: string): (ps: seq<string>)
    ensures pluginId !in granted ==> ps == []
    ensures pluginId in granted ==> ps == granted[pluginId]
  {
    if pluginId in granted then granted[pluginId] else []
  }

  class PermissionController {
    const privacy: PrivacyManager
    var granted: map<string, seq<string>>

    constructor (privacy: PrivacyManager)
      ensures this.privacy == privacy && granted == map[]
    {
      this.privacy := privacy;
      granted := map[];
    }

    /** `check_permission`: whether the plugin's list holds the permission. */
    function CheckPermission(pluginId: string, permission: string): (ok: bool)
      reads this
      ensures ok <==> pluginId in granted && permission in granted[pluginId]
      ensures ok <==> permission in Permissions(granted, pluginId)
    {
      pluginId in granted && permission in granted[pluginId]
    }

    /**
     * `request_permission`: an already granted pair gives true and changes nothing. Otherwise the
     * request is approved when `autoApprove` is set or the typed `answer` lower-cases to "y": an
     * approval appends the permission to the plugin's list and logs "permission_granted"; a
     * refusal changes no grant and logs "permission_denied".
     */
    method RequestPermission(pluginId: string, permission: string, autoApprove: bool, answer: string, now: string)
      returns (ok: bool)
      modifies this, privacy
      ensures old(CheckPermission(pluginId, permission)) ==>
                ok && granted == old(granted) && privacy.auditLog == old(privacy.auditLog)
      ensures !old(CheckPermission(pluginId, permission)) ==> ok == (autoApprove || Lower(answer) == "y")
      ensures !old(CheckPermission(pluginId, permission)) && ok ==>
                && granted == old(granted)[pluginId := Permissions(old(granted), pluginId) + [permission]]
                && privacy.auditLog == old(privacy.auditLog) +
                     (if privacy.auditEnabled then [AuditEntry(now, "permission_granted", PermissionDetails(pluginId, permission))] else [])
      ensures !old(CheckPermission(pluginId, permission)) && !ok ==>
                && granted == old(granted)
                && privacy.auditLog == old(privacy.auditLog) +
                     (if privacy.auditEnabled then [AuditEntry(now, "permission_denied", PermissionDetails(pluginId, permission))] else [])
      ensures ok <==> CheckPermission(pluginId, permission)
      ensures forall p :: p != pluginId ==> Permissions(granted, p) == Permissions(old(granted), p)
    {
      if pluginId in granted {
        if permission in granted[pluginId] {
          return true;
        }
      }
      var approved := autoApprove || Lower(answer) == "y";
      if approved {
        if pluginId !in granted {
          granted := granted[pluginId := []];
        }
        granted := granted[pluginId := granted[pluginId] + [permission]];
        privacy.LogAudit("permission_granted", PermissionDetails(pluginId, permission), now);
        return true;
      } else {
        privacy.LogAudit("permission_denied", PermissionDetails(pluginId, permission), now);
        return false;
      }
    }

    /**
     * `revoke_permission`: a held permission loses its first occurrence in the plugin's list and
     * the revocation is logged; a permission not held changes nothing and logs nothing.
     */
    method RevokePermission(pluginId: string, permission: string, now: string)
      modifies this, privacy
      ensures !old(CheckPermission(pluginId, permission)) ==>
                granted == old(granted) && privacy.auditLog == old(privacy.auditLog)
      ensures old(CheckPermission(pluginId, permission)) ==>
                && granted == old(granted)[pluginId := RemoveFirst(old(granted)[pluginId], permission)]
                && multiset(granted[pluginId]) == multiset(old(granted)[pluginId]) - multiset{permission}
                && privacy.auditLog == old(privacy.auditLog) +
                     (if privacy.auditEnabled then [AuditEntry(now, "permission_revoked", PermissionDetails(pluginId, permission))] else [])
      ensures forall p :: p != pluginId ==> Permissions(granted, p) == Permissions(old(granted), p)
    {
      if pluginId in granted {
        if permission in granted[pluginId] {
          RemoveFirstMultiset(granted[pluginId], permission);
          granted := granted[pluginId := RemoveFirst(granted[pluginId], permission)];
          privacy.LogAudit("permission_revoked", PermissionDetails(pluginId, permission), now);
        }
      }
    }
  }

  /**
   * Granting a permission a plugin did not hold and then revoking it leaves the plugin with the
   * permissions it held before, in the same order.
   */
  lemma GrantThenRevoke(ps: seq<string>, permission: string)
    requires permission !in ps
    ensures RemoveFirst(ps + [permission], permission) == ps
  {
    assert (ps + [permission])[..|ps|] == ps;
  }

  /** The keys `_anonymize_data` replaces by a digest. */
  const SensitiveKeys: set<string> := {"user_id", "username", "email"}

  /** `hexdigest()[:16]`: at most the first 16 characters. */
  function Short(hex: string): (r: string)
    ensures |r| == Min(16, |hex|) && r == hex[..|r|]
  {
    if |hex| <= 16 then hex else hex[..16]
  }

  /**
   * The dictionary `_anonymize_data` builds: the same keys, the sensitive ones mapped to the
   * shortened digest of their value and every other value kept.
   */
  function Anonymized(data: map<string, Value>, digest: Value -> string): (r: map<string, Value>)
    ensures r.Keys == data.Keys
    ensures forall k :: k in data && k !in SensitiveKeys ==> r[k] == data[k]
    ensures forall k :: k in data && k in SensitiveKeys ==> r[k].Str? && |r[k].s| <= 16 && r[k].s == Short(digest(data[k]))
  {
    map k | k in data :: if k in SensitiveKeys then Str(Short(digest(data[k]))) else data[k]
  }

  class AnalyticsManager {
    const privacy: PrivacyManager
    var enabled: bool
    const anonymize: bool

    /** `config.get("enabled", False)` and `config.get("anonymize_data", True)`. */
    constructor (privacy: PrivacyManager, enabled: Option<bool>, anonymize: Option<bool>)
      ensures this.privacy == privacy
      ensures this.enabled == enabled.GetOr(false) && this.anonymize == anonymize.GetOr(true)
    {
      this.privacy := privacy;
      this.enabled := enabled.GetOr(false);
      this.anonymize := anonymize.GetOr(true);
    }

    /** `_anonymize_data`: the loop over the items, one key at a time. */
    static method AnonymizeData(data: map<string, Value>, digest: Value -> string) returns (anonymized: map<string, Value>)
      ensures anonymized == Anonymized(data, digest)
    {
      anonymized := map[];
      var remaining := data.Keys;
      while remaining != {}
        invariant remaining <= data.Keys
        invariant anonymized.Keys == data.Keys - remaining
        invariant forall k :: k in anonymized ==> anonymized[k] == Anonymized(data, digest)[k]
        decreases |remaining|
      {
        var key :| key in remaining;
        if key in SensitiveKeys {
          anonymized := anonymized[key := Str(Short(digest(data[key])))];
        } else {
          anonymized := anonymized[key := data[key]];
        }
        remaining := remaining - {key};
      }
    }

    /**
     * `track_event`: nothing while analytics is off. Otherwise the event data, anonymized when
     * so configured, is what goes out (returned here), and the event is logged.
     */
    method TrackEvent(eventName: string, eventData: map<string, Value>, digest: Value -> string, now: string)
      returns (sent: Option<map<string, Value>>)
      modifies privacy
      ensures !enabled ==> sent.None? && privacy.auditLog == old(privacy.auditLog)
      ensures enabled ==> sent == Some(if anonymize then Anonymized(eventData, digest) else eventData)
      ensures enabled ==>
                privacy.auditLog == old(privacy.auditLog) +
                  (if privacy.auditEnabled
                   then [AuditEntry(now, "analytics_event", map["event" := Str(eventName), "anonymized" := Bool(anonymize)])]
                   else [])
    {
      if !enabled {
        return None;
      }
      var data := eventData;
      if anonymize {
        data := AnonymizeData(eventData, digest);
      }
      privacy.LogAudit("analytics_event", map["event" := Str(eventName), "anonymized" := Bool(anonymize)], now);
      sent := Some(data);
    }

    /** `set_enabled`: the switch, and an audit entry for the change. */
    method SetEnabled(enabled: bool, now: string)
      modifies this, privacy
      ensures this.enabled == enabled
      ensures privacy.auditLog == old(privacy.auditLog) +
                (if privacy.auditEnabled then [AuditEntry(now, "analytics_toggled", map["enabled" := Bool(enabled)])] else [])
    {
      this.enabled := enabled;
      privacy.LogAudit("analytics_toggled", map["enabled" := Bool(enabled)], now);
    }
  }
}
