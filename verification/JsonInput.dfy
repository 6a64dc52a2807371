/** A custom tool's input as the JSON library reads it, twice: as the member "input" of an object, and as the field
    Input of a record. An object keeps the last member of each exact name; a record also takes the member under
    spellings that differ in case, in order, and skips values that are not strings. */
module JsonInput {
  import opened Outcomes

  datatype Value = NullValue | TextValue(text: string) | OtherValue

  datatype Member = Member(name: string, value: Value)

  /** The member "input" of an object. */
  datatype InputField = Missing | NotText | Null | Text(value: string)

  function AsField(v: Value): InputField {
    match v case NullValue => Null case TextValue(text) => Text(text) case OtherValue => NotText
  }

  function FieldOf(members: seq<Member>): InputField {
    if members == [] then Missing
    else
      var last := members[|members| - 1];
      if last.name == "input" then AsField(last.value) else FieldOf(members[..|members| - 1])
  }

  /** The name matches the record's field; of the letters in "input" none has a case variant outside ASCII. */
  predicate Folds(name: string) {
    |name| == 5 && forall i :: 0 <= i < 5 ==> name[i] == "input"[i] || name[i] == "INPUT"[i]
  }

  predicate Taken(m: Member) {
    Folds(m.name) && m.value.TextValue?
  }

  function RecordOf(members: seq<Member>): string {
    if members == [] then ""
    else
      var last := members[|members| - 1];
      if Taken(last) then last.value.text else RecordOf(members[..|members| - 1])
  }

  predicate LastInput(members: seq<Member>, k: nat) {
    k < |members| && members[k].name == "input" && forall j :: k < j < |members| ==> members[j].name != "input"
  }

  predicate LastTaken(members: seq<Member>, k: nat) {
    k < |members| && Taken(members[k]) && forall j :: k < j < |members| ==> !Taken(members[j])
  }

  /** The last member "input" is a string, and no later spelling of the name ends on another text. */
  predicate ReadAlike(members: seq<Member>) {
    exists k :: 0 <= k < |members| && LastInput(members, k) && members[k].value.TextValue? && NoOtherAfter(members, k,
        members[k].value.text)
  }

  predicate NoOtherAfter(members: seq<Member>, k: nat, text: string) {
    forall j :: k < j < |members| && LastTaken(members, j) ==> members[j].value.text == text
  }

  lemma {:induction false} FieldAt(members: seq<Member>, k: nat)
    requires LastInput(members, k)
    ensures FieldOf(members) == AsField(members[k].value)
  {
    if k < |members| - 1 {
      FieldAt(members[..|members| - 1], k);
    }
  }

  lemma {:induction false} FieldSomewhere(members: seq<Member>) returns (k: nat)
    requires FieldOf(members) != Missing
    ensures LastInput(members, k)
  {
    var n := |members| - 1;
    if members[n].name == "input" {
      k := n;
    } else {
      k := FieldSomewhere(members[..n]);
    }
  }

  lemma {:induction false} RecordAt(members: seq<Member>, k: nat)
    requires LastTaken(members, k)
    ensures RecordOf(members) == members[k].value.text
  {
    if k < |members| - 1 {
      RecordAt(members[..|members| - 1], k);
    }
  }

  lemma {:induction false} TakenSomewhere(members: seq<Member>, k: nat) returns (j: nat)
    requires k < |members| && Taken(members[k])
    ensures k <= j && LastTaken(members, j)
  {
    var n := |members| - 1;
    if Taken(members[n]) {
      j := n;
    } else {
      j := TakenSomewhere(members[..n], k);
    }
  }

  lemma OneLastTaken(members: seq<Member>, i: nat, j: nat)
    requires LastTaken(members, i) && LastTaken(members, j)
    ensures i == j
  {
  }

  lemma OneLastInput(members: seq<Member>, i: nat, j: nat)
    requires LastInput(members, i) && LastInput(members, j)
    ensures i == j
  {
  }

  /** The two readings give the same text exactly when the members are read alike. */
  lemma ReadingsAgree(members: seq<Member>)
    ensures FieldOf(members) == Text(RecordOf(members)) <==> ReadAlike(members)
  {
    if FieldOf(members) != Missing {
      var k := FieldSomewhere(members);
      FieldAt(members, k);
      if members[k].value.TextValue? {
        var j := TakenSomewhere(members, k);
        RecordAt(members, j);
        forall i | k < i < |members| && LastTaken(members, i) ensures i == j {
          OneLastTaken(members, i, j);
        }
        assert NoOtherAfter(members, k, members[k].value.text) <==> RecordOf(members) == members[k].value.text;
      }
      forall i | 0 <= i < |members| && LastInput(members, i) ensures i == k {
        OneLastInput(members, i, k);
      }
    } else if ReadAlike(members) {
      var k :| 0 <= k < |members| && LastInput(members, k) && members[k].value.TextValue?;
      FieldAt(members, k);
    }
  }

  predicate Shorter(members: seq<Member>, n: nat) {
    forall i :: 0 <= i < |members| && members[i].value.TextValue? ==> |members[i].value.text| < n
  }

  lemma {:induction false} RecordShorter(members: seq<Member>, n: nat)
    requires Shorter(members, n) && n > 0
    ensures |RecordOf(members)| < n
  {
    if members != [] {
      RecordShorter(members[..|members| - 1], n);
    }
  }

  /** How JSON texts are read: the members of a text that is an object, in order. */
  datatype Codec = Codec(members: string -> Option<seq<Member>>) {
    predicate IsObject(text: string) {
      members(text).Some?
    }

    function InputOf(text: string): InputField {
      if IsObject(text) then FieldOf(members(text).value) else Missing
    }

    function RecordInput(text: string): string {
      if IsObject(text) then RecordOf(members(text).value) else ""
    }

    predicate ReadsAlike(text: string) {
      IsObject(text) && ReadAlike(members(text).value)
    }

    /** A text inside an object is shorter than the object's own text. */
    ghost predicate Lawful() {
      forall text: string :: IsObject(text) ==> 0 < |text| && Shorter(members(text).value, |text|)
    }
  }

  /** No object is equal to a text inside it. */
  lemma NeverItself(codec: Codec, text: string)
    requires codec.Lawful() && codec.IsObject(text)
    ensures codec.RecordInput(text) != text
  {
    RecordShorter(codec.members(text).value, |text|);
  }
}
