/** The server-side store of per-character instruction overrides: a map from
    character id to the stored record, loaded from and written back to a
    JSON file around every operation. */
module InstructionStore {
  import opened Wrappers

  /** A stored override. `updatedAt` is the write time in milliseconds (the
      ISO text written by the store parses back to the same instant). */
  datatype StoredInstruction = StoredInstruction(
    characterId: string,
    systemInstruction: string,
    voiceName: string,
    updatedAt: int,
    updatedBy: Option<string>)

  /** What reading the store file yields: no file, a read or parse error,
      or the parsed `instructions` record. */
  datatype StoreFile = Missing | Unreadable | Parsed(instructions: map<string, StoredInstruction>)

  /** `readStore`: a missing file or a failed read gives the empty store. */
  function ReadStore(file: StoreFile): (m: map<string, StoredInstruction>)
    ensures file.Parsed? ==> m == file.instructions
    ensures file.Missing? || file.Unreadable? ==> |m| == 0
  {
    match file
    case Parsed(instructions) => instructions
    case _ => map[]
  }

  /** Every entry is filed under the id it carries. */
  ghost predicate Keyed(m: map<string, StoredInstruction>)
  {
    forall id :: id in m ==> m[id].characterId == id
  }

  /** The record `setCustomInstruction` stores. */
  function Record(id: string, instruction: string, voice: string, updatedBy: Option<string>, now: int): (r: StoredInstruction)
    ensures r.characterId == id && r.systemInstruction == instruction && r.voiceName == voice
    ensures r.updatedAt == now && r.updatedBy == updatedBy
  {
    StoredInstruction(id, instruction, voice, now, updatedBy)
  }

  /** Writing an entry for `id` makes `id` map to the new record and leaves
      every other entry as it was; it keeps a keyed store keyed. */
  lemma {:induction false} WriteFrame(m: map<string, StoredInstruction>, id: string, s: StoredInstruction)
    requires s.characterId == id
    ensures id in m[id := s] && m[id := s][id] == s
    ensures forall k :: k != id ==> (k in m[id := s] <==> k in m)
    ensures forall k :: k != id && k in m ==> m[id := s][k] == m[k]
    ensures Keyed(m) ==> Keyed(m[id := s])
  {
  }

  /** Deleting `id` removes exactly that entry; deleting an absent id changes
      nothing; a keyed store stays keyed. */
  lemma {:induction false} DeleteFrame(m: map<string, StoredInstruction>, id: string)
    ensures id !in m - {id}
    ensures forall k :: k != id ==> (k in m - {id} <==> k in m)
    ensures forall k :: k != id && k in m ==> (m - {id})[k] == m[k]
    ensures id !in m ==> m - {id} == m
    ensures Keyed(m) ==> Keyed(m - {id})
  {
  }

  /** The store as one object over the contents of its file. */
  class Store {
    var instructions: map<string, StoredInstruction>

    /** The store as `readStore` finds it. */
    constructor Load(file: StoreFile)
      ensures instructions == ReadStore(file)
    {
      instructions := ReadStore(file);
    }

    /** `getCustomInstruction`: the record stored for `id`, or nothing. */
    function Get(id: string): (r: Option<StoredInstruction>)
      reads this
      ensures r.Some? <==> id in instructions
      ensures r.Some? ==> r.value == instructions[id]
    {
      if id in instructions then Some(instructions[id]) else None
    }

    /** `setCustomInstruction`: stores a record stamped with the write time
      `now`, replacing whatever was stored for `id`. */
    method Set(id: string, instruction: string, voice: string, updatedBy: Option<string>, now: int)
      modifies this
      ensures instructions == old(instructions)[id := Record(id, instruction, voice, updatedBy, now)]
      ensures Get(id) == Some(Record(id, instruction, voice, updatedBy, now))
      ensures old(Keyed(instructions)) ==> Keyed(instructions)
    {
      instructions := instructions[id := Record(id, instruction, voice, updatedBy, now)];
    }

    /** `deleteCustomInstruction`: reverts `id` to the code default. */
    method Delete(id: string)
      modifies this
      ensures instructions == old(instructions) - {id}
      ensures Get(id).None?
      ensures old(Keyed(instructions)) ==> Keyed(instructions)
    {
      instructions := instructions - {id};
    }

    /** `getAllCustomInstructions`: the whole map. */
    function GetAll(): (m: map<string, StoredInstruction>)
      reads this
      ensures m == instructions
    {
      instructions
    }
  }
}
