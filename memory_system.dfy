/**
 * The capacity-bounded conversation log of `src/memory/memory_system.py`.
 *
 * Timestamps are passed in as text (the ISO form of `datetime.now()`). File persistence is
 * reduced to the load path: the file's bytes, the cipher's decryption and the JSON reading are
 * given as partial functions, and the model states when the loaded entries replace the log.
 */
module Memory {
  import opened Wrappers
  import opened Seqs
  import opened Strings
  import opened Values
  import opened Chat
  import opened Utf8

  datatype MemoryEntry = MemoryEntry(timestamp: string, role: string, content: string, metadata: map<string, Value>)

  datatype MemoryConfig = MemoryConfig(storagePath: string, maxEntries: int, encryptionEnabled: bool, encryptionKey: Option<string>)

  const DefaultMemoryConfig := MemoryConfig("./data/memory", 100, true, None)

  /** The log after appending one entry: when it is longer than `max_entries`, it keeps `memories[-max_entries:]`. */
  function Appended(memories: seq<MemoryEntry>, entry: MemoryEntry, maxEntries: int): (r: seq<MemoryEntry>)
    ensures maxEntries >= 0 ==> |r| >= 1 && r[|r| - 1] == entry
    ensures maxEntries >= 1 ==> |r| == Min(|memories| + 1, maxEntries)
    ensures maxEntries == 0 ==> r == memories + [entry]
  {
    var m := memories + [entry];
    if |m| > maxEntries then TailSlice(m, maxEntries) else m
  }

  /** The log after adding `entries` one at a time. */
  function AppendedAll(memories: seq<MemoryEntry>, entries: seq<MemoryEntry>, maxEntries: int): (r: seq<MemoryEntry>)
    ensures |r| <= |memories| + |entries|
    ensures maxEntries >= 1 && |memories| <= maxEntries ==> |r| <= maxEntries
  {
    if entries == [] then memories
    else Appended(AppendedAll(memories, entries[..|entries| - 1], maxEntries), entries[|entries| - 1], maxEntries)
  }

  /** Adding to a log that holds the most recent entries of `s` gives the most recent entries of `s + [entry]`. */
  lemma AppendedToRecent(s: seq<MemoryEntry>, entry: MemoryEntry, maxEntries: int)
    requires maxEntries >= 1
    ensures Appended(TailSlice(s, maxEntries), entry, maxEntries) == TailSlice(s + [entry], maxEntries)
  {
    TailSliceSnoc(s, entry, maxEntries);
    var a := TailSlice(s, maxEntries) + [entry];
    assert |a| > maxEntries ==> TailSlice(a, maxEntries) == a[1..];
  }

  /**
   * With a positive capacity the log holds the most recent `max_entries` entries ever added,
   * oldest first, and never more.
   */
  lemma {:induction false} AppendedAllKeepsMostRecent(memories: seq<MemoryEntry>, entries: seq<MemoryEntry>, maxEntries: int)
    requires maxEntries >= 1 && |memories| <= maxEntries
    ensures AppendedAll(memories, entries, maxEntries) == TailSlice(memories + entries, maxEntries)
    ensures |AppendedAll(memories, entries, maxEntries)| <= maxEntries
  {
    if entries != [] {
      var init, last := entries[..|entries| - 1], entries[|entries| - 1];
      AppendedAllKeepsMostRecent(memories, init, maxEntries);
      AppendedAllStep(memories, init, last, maxEntries);
      assert entries == init + [last];
    }
  }

  /** One more entry added to a log that holds the most recent entries so far. */
  lemma AppendedAllStep(memories: seq<MemoryEntry>, init: seq<MemoryEntry>, last: MemoryEntry, maxEntries: int)
    requires maxEntries >= 1
    requires AppendedAll(memories, init, maxEntries) == TailSlice(memories + init, maxEntries)
    ensures AppendedAll(memories, init + [last], maxEntries) == TailSlice(memories + (init + [last]), maxEntries)
  {
    assert (init + [last])[..|init|] == init;
    AppendedToRecent(memories + init, last, maxEntries);
    assert memories + (init + [last]) == (memories + init) + [last];
  }

  /** A capacity of 0 bounds nothing: `memories[-0:]` is the whole list, so every entry is kept. */
  lemma {:induction false} AppendedAllZeroCapacity(memories: seq<MemoryEntry>, entries: seq<MemoryEntry>)
    ensures AppendedAll(memories, entries, 0) == memories + entries
  {
    if entries != [] {
      var init := entries[..|entries| - 1];
      AppendedAllZeroCapacity(memories, init);
      assert memories + entries == (memories + init) + [entries[|entries| - 1]];
    }
  }

  /** The entries whose lower-cased content contains `q`, in log order. */
  function Matching(memories: seq<MemoryEntry>, q: string): (r: seq<MemoryEntry>)
    ensures |r| <= |memories|
    ensures forall i :: 0 <= i < |r| ==> r[i] in memories && Contains(Lower(r[i].content), q)
    ensures forall e :: e in memories && Contains(Lower(e.content), q) ==> e in r
  {
    if memories == [] then []
    else
      var last := memories[|memories| - 1];
      var init := Matching(memories[..|memories| - 1], q);
      if Contains(Lower(last.content), q) then init + [last] else init
  }

  /** One more entry joins the matches at their end exactly when it matches: the search keeps log order. */
  lemma MatchingSnoc(memories: seq<MemoryEntry>, e: MemoryEntry, q: string)
    ensures Matching(memories + [e], q) == Matching(memories, q) + (if Contains(Lower(e.content), q) then [e] else [])
  {
    assert (memories + [e])[..|memories|] == memories;
  }

  /** Projecting entries onto the chat `{"role", "content"}` shape. */
  function AsMessages(entries: seq<MemoryEntry>): (msgs: seq<Message>)
    ensures |msgs| == |entries|
    ensures forall i :: 0 <= i < |entries| ==> msgs[i] == Message(entries[i].role, entries[i].content)
  {
    seq(|entries|, i requires 0 <= i < |entries| => Message(entries[i].role, entries[i].content))
  }

  /**
   * What `_load_memories` reads: nothing when the file is missing or any step fails; a decrypt
   * failure is one such step.
   */
  function Loaded(file: Option<seq<Byte>>, decrypting: bool, decrypt: seq<Byte> -> Option<seq<Byte>>,
                  parse: string -> Option<seq<MemoryEntry>>): (r: Option<seq<MemoryEntry>>)
    ensures file.None? ==> r.None?
    ensures decrypting && file.Some? && decrypt(file.value).None? ==> r.None?
  {
    if file.None? then None
    else
      var plain := if decrypting then decrypt(file.value) else Some(file.value);
      if plain.None? then None
      else
        match Decode(plain.value)
        case None => None
        case Some(text) => parse(text)
  }

  class MemorySystem {
    const config: MemoryConfig
    /** `config.encryption_enabled`, which start-up turns off when no cipher library is present. */
    var encryptionEnabled: bool
    var hasCipher: bool
    var memories: seq<MemoryEntry>

    /**
     * A new store is empty: start-up sets up the cipher but never reads the saved log.
     * `cryptoAvailable` tells whether the cipher library could be imported.
     */
    constructor (config: MemoryConfig, cryptoAvailable: bool)
      ensures this.config == config
      ensures memories == []
      ensures encryptionEnabled == (config.encryptionEnabled && cryptoAvailable)
      ensures hasCipher == encryptionEnabled
    {
      this.config := config;
      memories := [];
      encryptionEnabled := config.encryptionEnabled && cryptoAvailable;
      hasCipher := config.encryptionEnabled && cryptoAvailable;
    }

    /** `add_memory`: one entry with the given role and content (metadata `{}` by default), then the trim. */
    method AddMemory(role: string, content: string, metadata: Option<map<string, Value>>, now: string)
      modifies this
      ensures memories == Appended(old(memories), MemoryEntry(now, role, content, metadata.GetOr(map[])), config.maxEntries)
      ensures encryptionEnabled == old(encryptionEnabled) && hasCipher == old(hasCipher)
    {
      var entry := MemoryEntry(now, role, content, metadata.GetOr(map[]));
      memories := memories + [entry];
      if |memories| > config.maxEntries {
        memories := TailSlice(memories, config.maxEntries);
      }
    }

    /** `get_recent_memories`: `memories[-limit:]`, the last `limit` entries in order for a positive limit. */
    function GetRecentMemories(limit: int): (r: seq<MemoryEntry>)
      reads this
      ensures limit > 0 ==> |r| == Min(limit, |memories|) && r == memories[|memories| - |r|..]
      ensures limit == 0 ==> r == memories
    {
      TailSlice(memories, limit)
    }

    /** `get_conversation_history`: the recent entries as chat messages, same length and order. */
    function GetConversationHistory(limit: int): (msgs: seq<Message>)
      reads this
      ensures |msgs| == |GetRecentMemories(limit)|
      ensures forall i :: 0 <= i < |msgs| ==>
                msgs[i].role == GetRecentMemories(limit)[i].role && msgs[i].content == GetRecentMemories(limit)[i].content
    {
      AsMessages(GetRecentMemories(limit))
    }

    /** `search_memories`: the last `limit` entries whose content contains the query, ignoring case. */
    function SearchMemories(query: string, limit: int): (r: seq<MemoryEntry>)
      reads this
      ensures forall i :: 0 <= i < |r| ==> r[i] in memories && Contains(Lower(r[i].content), Lower(query))
      ensures limit > 0 ==> |r| == Min(limit, |Matching(memories, Lower(query))|)
      ensures limit > 0 ==> r == Matching(memories, Lower(query))[|Matching(memories, Lower(query))| - |r|..]
      ensures limit == 0 ==> r == Matching(memories, Lower(query))
      ensures limit < 0 ==> r == Matching(memories, Lower(query))[Min(-limit, |Matching(memories, Lower(query))|)..]
    {
      TailSlice(Matching(memories, Lower(query)), limit)
    }

    /** `clear_memories`. */
    method ClearMemories()
      modifies this
      ensures memories == []
      ensures encryptionEnabled == old(encryptionEnabled) && hasCipher == old(hasCipher)
    {
      memories := [];
    }

    /** `get_stats`: the entry count and the configuration. */
    function GetStats(): (stats: map<string, Value>)
      reads this
      ensures stats.Keys == {"total_entries", "max_entries", "encryption_enabled", "storage_path"}
      ensures stats["total_entries"] == Int(|memories|)
      ensures stats["encryption_enabled"] == Bool(encryptionEnabled)
      ensures stats["max_entries"] == Int(config.maxEntries) && stats["storage_path"] == Str(config.storagePath)
    {
      map["total_entries" := Int(|memories|), "max_entries" := Int(config.maxEntries),
          "encryption_enabled" := Bool(encryptionEnabled), "storage_path" := Str(config.storagePath)]
    }

    /**
     * `_load_memories`: `file` is the saved file's bytes (`None` when it does not exist). The
     * log is replaced only once every step succeeded; otherwise it is left as it was.
     */
    method LoadMemories(file: Option<seq<Byte>>, decrypt: seq<Byte> -> Option<seq<Byte>>,
                        parse: string -> Option<seq<MemoryEntry>>)
      modifies this
      ensures var r := Loaded(file, encryptionEnabled && hasCipher, decrypt, parse);
              memories == if r.Some? then r.value else old(memories)
      ensures file.Some? && encryptionEnabled && hasCipher && decrypt(file.value).None? ==> memories == old(memories)
      ensures encryptionEnabled == old(encryptionEnabled) && hasCipher == old(hasCipher)
    {
      if file.None? {
        return;
      }
      var plain: seq<Byte>;
      if encryptionEnabled && hasCipher {
        var d := decrypt(file.value);
        if d.None? {
          return;
        }
        plain := d.value;
      } else {
        plain := file.value;
      }
      var text := Decode(plain);
      if text.None? {
        return;
      }
      var entries := parse(text.value);
      if entries.None? {
        return;
      }
      memories := entries.value;
    }
  }
}
