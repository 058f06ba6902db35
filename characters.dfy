/** The table of conversation partners and its two lookups. */
module Characters {
  import opened Wrappers

  datatype Gender = Male | Female

  /** A character card. `lastUpdated` (a date in milliseconds) and `version`
      are read by the instruction sync but are not declared by the record
      type, so every entry of the shipped table leaves them undefined. */
  datatype Character = Character(
    id: string,
    name: string,
    nameArabic: string,
    gender: Gender,
    description: string,
    descriptionArabic: string,
    avatar: string,
    voiceName: string,
    systemInstruction: string,
    lastUpdated: Option<int>,
    version: Option<string>)

  // The system prompts are long multi-paragraph texts; each is represented
  // by its opening sentence.
  const AhmedInstruction: string :=
    "You are Ahmed (أحمد), a friendly 28-year-old Palestinian male teacher from Ramallah who speaks Palestinian Arabic dialect (اللهجة الفلسطينية)."
  const LaylaInstruction: string :=
    "You are Layla (ليلى), a warm 35-year-old Palestinian female shopkeeper from Nablus who speaks Palestinian Arabic dialect (اللهجة الفلسطينية)."
  const OmarInstruction: string :=
    "You are Omar (عمر), a wise 68-year-old Palestinian male storyteller from Jerusalem who speaks Palestinian Arabic dialect (اللهجة الفلسطينية)."

  const Ahmed: Character := Character(
    "ahmed", "Ahmed", "أحمد", Male,
    "Friendly young teacher who loves helping people learn",
    "معلم شاب ودود بحب يساعد الناس يتعلموا",
    "👨‍🏫", "Puck", AhmedInstruction, None, None)

  const Layla: Character := Character(
    "layla", "Layla", "ليلى", Female,
    "Warm shopkeeper who knows everyone in the neighborhood",
    "صاحبة دكان طيبة بتعرف كل الحي",
    "👩‍💼", "Kore", LaylaInstruction, None, None)

  const Omar: Character := Character(
    "omar", "Omar", "عمر", Male,
    "Wise elderly storyteller with a great sense of humor",
    "عجوز حكيم حكواتي وعنده روح الدعابة",
    "👴", "Charon", OmarInstruction, None, None)

  /** `characters`, in display order. */
  const Table: seq<Character> := [Ahmed, Layla, Omar]

  /** `Array.prototype.find` on ids: the first entry whose id equals `id`. */
  function Find(table: seq<Character>, id: string): (r: Option<Character>)
    ensures r.Some? ==> r.value in table && r.value.id == id
    ensures r.None? <==> forall i :: 0 <= i < |table| ==> table[i].id != id
    ensures r.Some? ==> exists i :: 0 <= i < |table| && table[i] == r.value
                                    && (forall j :: 0 <= j < i ==> table[j].id != id)
  {
    if |table| == 0 then None
    else if table[0].id == id then Some(table[0])
    else
      var r := Find(table[1..], id);
      if r.Some? then
        var i :| 0 <= i < |table[1..]| && table[1..][i] == r.value
                 && (forall j :: 0 <= j < i ==> table[1..][j].id != id);
        assert table[i + 1] == r.value;
        r
      else r
  }

  /** In a table whose ids are distinct, `Find` returns exactly the entry
      carrying the id. */
  lemma {:induction false} FindUnique(table: seq<Character>, i: nat)
    requires i < |table|
    requires forall j, k :: 0 <= j < k < |table| ==> table[j].id != table[k].id
    ensures Find(table, table[i].id) == Some(table[i])
  {
    if i > 0 {
      assert table[0].id != table[i].id;
      assert table[1..][i - 1] == table[i];
      FindUnique(table[1..], i - 1);
    }
  }

  /** `getCharacterById`. */
  function GetCharacterById(id: string): (r: Option<Character>)
    ensures r.Some? ==> r.value in Table && r.value.id == id
    ensures r.None? <==> forall c :: c in Table ==> c.id != id
  {
    Find(Table, id)
  }

  /** `getDefaultCharacter`: the first entry of the table. */
  function GetDefaultCharacter(): (c: Character)
    ensures c == Table[0] && GetCharacterById(c.id) == Some(c)
  {
    IdsDistinct();
    FindUnique(Table, 0);
    Table[0]
  }

  /** The shipped table holds three entries with the distinct ids `ahmed`,
      `layla` and `omar`, and each is found by its own id. */
  lemma IdsDistinct()
    ensures |Table| == 3
    ensures Table[0].id == "ahmed" && Table[1].id == "layla" && Table[2].id == "omar"
    ensures forall j, k :: 0 <= j < k < |Table| ==> Table[j].id != Table[k].id
  {
    assert "ahmed"[1] != "layla"[1];
  }

  /** Every entry is found by its own id. */
  lemma LookupFindsEach()
    ensures forall i :: 0 <= i < |Table| ==> GetCharacterById(Table[i].id) == Some(Table[i])
  {
    IdsDistinct();
    forall i | 0 <= i < |Table|
      ensures GetCharacterById(Table[i].id) == Some(Table[i])
    {
      FindUnique(Table, i);
    }
  }

  /** Two characters are male and one is female. */
  lemma Genders()
    ensures |set i | 0 <= i < |Table| && Table[i].gender == Male| == 2
    ensures |set i | 0 <= i < |Table| && Table[i].gender == Female| == 1
  {
    var males := set i | 0 <= i < |Table| && Table[i].gender == Male;
    assert males == {0, 2};
    var females := set i | 0 <= i < |Table| && Table[i].gender == Female;
    assert females == {1};
  }

  /** Every character has a voice and a prompt, and none declares a last
      update date or a version. */
  lemma EntriesComplete()
    ensures forall c :: c in Table ==> c.voiceName != [] && c.systemInstruction != []
    ensures forall c :: c in Table ==> c.lastUpdated.None? && c.version.None?
  {
  }
}
