/**
 The byte strings that recovery signatures bind to (`mpc-recovery/src/proof.rs`): how the four
 kinds of message are laid out, a decoder for all of them, and the proof that the two are
 inverse, so that a signature over one message can never be read as another.
 */
module RecoveryMessages {
  import opened Bytes
  import opened Common

  const ED25519_TAG: Byte := 0
  const SECP256K1_TAG: Byte := 1

  /** A public key carries its curve in the first byte, which fixes its length. */
  predicate WellFormedKey(k: seq<Byte>) {
    k != [] && (if k[0] == ED25519_TAG then |k| == 33 else k[0] == SECP256K1_TAG && |k| == 65)
  }

  type PublicKey = k: seq<Byte> | WellFormedKey(k) witness seq(33, _ => ED25519_TAG)

  predicate IsEd25519(k: PublicKey) {
    k[0] == ED25519_TAG
  }

  datatype Message =
    | Request(contract: Text, account: Text, newKey: PublicKey, round: U64)
    | Verdict(contract: Text, account: Text, newKey: PublicKey, round: U64, approve: bool)
    | NameRecovery(contract: Text, tla: Text, name: Text, newOwner: Text, expectedOwner: Text,
                   deadline: U64, round: U64)
    | NameRequest(contract: Text, tla: Text, name: Text, newOwner: Text, round: U64)

  // ---------------------------------------------------------------- layout

  datatype Field = TextField(text: Text) | KeyField(key: PublicKey) | IntField(n: U64) | FlagField(flag: bool)

  datatype Kind = IsText | IsKey | IsInt | IsFlag

  function KindOf(f: Field): Kind {
    match f
    case TextField(_) => IsText
    case KeyField(_) => IsKey
    case IntField(_) => IsInt
    case FlagField(_) => IsFlag
  }

  function FieldBytes(f: Field): seq<Byte> {
    match f
    case TextField(s) => TextBytes(s)
    case KeyField(k) => k
    case IntField(n) => LeBytes(n, 8)
    case FlagField(b) => [if b then 1 else 0]
  }

  datatype List<+T> = Nil | Cons(head: T, tail: List<T>)

  function FieldsBytes(fs: List<Field>): seq<Byte> {
    match fs
    case Nil => []
    case Cons(f, rest) => FieldBytes(f) + FieldsBytes(rest)
  }

  function Domain(m: Message): Byte {
    match m
    case Request(_, _, _, _) => 1
    case Verdict(_, _, _, _, _) => 2
    case NameRecovery(_, _, _, _, _, _, _) => 3
    case NameRequest(_, _, _, _, _) => 4
  }

  function Fields(m: Message): List<Field> {
    match m
    case Request(contract, account, key, round) =>
      Cons(TextField(contract), Cons(TextField(account), Cons(KeyField(key), Cons(IntField(round), Nil))))
    case Verdict(contract, account, key, round, approve) =>
      Cons(TextField(contract), Cons(TextField(account), Cons(KeyField(key), Cons(IntField(round),
        Cons(FlagField(approve), Nil)))))
    case NameRecovery(contract, tla, name, newOwner, expected, deadline, round) =>
      Cons(TextField(contract), Cons(TextField(tla), Cons(TextField(name), Cons(TextField(newOwner),
        Cons(TextField(expected), Cons(IntField(deadline), Cons(IntField(round), Nil)))))))
    case NameRequest(contract, tla, name, newOwner, round) =>
      Cons(TextField(contract), Cons(TextField(tla), Cons(TextField(name), Cons(TextField(newOwner),
        Cons(IntField(round), Nil)))))
  }

  function Encode(m: Message): seq<Byte> {
    [Domain(m)] + FieldsBytes(Fields(m))
  }

  // ---------------------------------------------------------------- reading it back

  datatype Read = Fail | Got(field: Field, rest: seq<Byte>)

  function ReadField(kind: Kind, b: seq<Byte>): Read {
    match kind
    case IsText =>
      var t := ReadText(b);
      if t.None? then Fail else Got(TextField(t.value.0), t.value.1)
    case IsKey =>
      if |b| >= 33 && b[0] == ED25519_TAG then Got(KeyField(b[..33]), b[33..])
      else if |b| >= 65 && b[0] == SECP256K1_TAG then Got(KeyField(b[..65]), b[65..])
      else Fail
    case IsInt =>
      if |b| < 8 || LeValue(b[..8]) >= 0x1_0000_0000_0000_0000 then Fail
      else Got(IntField(LeValue(b[..8])), b[8..])
    case IsFlag =>
      if |b| < 1 || b[0] > 1 then Fail else Got(FlagField(b[0] == 1), b[1..])
  }

  function ReadFields(kinds: List<Kind>, b: seq<Byte>): Option<List<Field>> {
    match kinds
    case Nil => if b == [] then Some(Nil) else None
    case Cons(kind, more) =>
      var first := ReadField(kind, b);
      if first.Fail? then None
      else
        var others := ReadFields(more, first.rest);
        if others.None? then None else Some(Cons(first.field, others.value))
  }

  /** The fields each domain byte announces. */
  function Shape(domain: Byte): Option<List<Kind>> {
    match domain
    case 1 => Some(Cons(IsText, Cons(IsText, Cons(IsKey, Cons(IsInt, Nil)))))
    case 2 => Some(Cons(IsText, Cons(IsText, Cons(IsKey, Cons(IsInt, Cons(IsFlag, Nil))))))
    case 3 => Some(Cons(IsText, Cons(IsText, Cons(IsText, Cons(IsText, Cons(IsText,
                Cons(IsInt, Cons(IsInt, Nil))))))))
    case 4 => Some(Cons(IsText, Cons(IsText, Cons(IsText, Cons(IsText, Cons(IsInt, Nil))))))
    case _ => None
  }

  function Kinds(fs: List<Field>): List<Kind> {
    match fs
    case Nil => Nil
    case Cons(f, rest) => Cons(KindOf(f), Kinds(rest))
  }

  function Build(domain: Byte, fs: List<Field>): Option<Message> {
    match fs
    case Cons(TextField(contract), Cons(TextField(account), Cons(KeyField(key), Cons(IntField(round), Nil)))) =>
      if domain == 1 then Some(Request(contract, account, key, round)) else None
    case Cons(TextField(contract), Cons(TextField(account), Cons(KeyField(key), Cons(IntField(round),
           Cons(FlagField(approve), Nil))))) =>
      if domain == 2 then Some(Verdict(contract, account, key, round, approve)) else None
    case Cons(TextField(contract), Cons(TextField(tla), Cons(TextField(name), Cons(TextField(newOwner),
           Cons(TextField(expected), Cons(IntField(deadline), Cons(IntField(round), Nil))))))) =>
      if domain == 3 then Some(NameRecovery(contract, tla, name, newOwner, expected, deadline, round)) else None
    case Cons(TextField(contract), Cons(TextField(tla), Cons(TextField(name), Cons(TextField(newOwner),
           Cons(IntField(round), Nil))))) =>
      if domain == 4 then Some(NameRequest(contract, tla, name, newOwner, round)) else None
    case _ => None
  }

  function Decode(b: seq<Byte>): Option<Message> {
    if b == [] || Shape(b[0]).None? then None
    else
      var fs := ReadFields(Shape(b[0]).value, b[1..]);
      if fs.None? then None else Build(b[0], fs.value)
  }

  /** A field written in front of any bytes is read back, leaving those bytes. */
  lemma FieldBack(f: Field, tail: seq<Byte>)
    ensures ReadField(KindOf(f), FieldBytes(f) + tail) == Got(f, tail)
  {
    var b := FieldBytes(f) + tail;
    Widths();
    match f {
      case TextField(s) => TextBack(s, tail);
      case KeyField(k) =>
        assert b[..|k|] == k && b[|k|..] == tail;
      case IntField(n) =>
        LeValueOfBytes(n, 8);
        assert b[..8] == LeBytes(n, 8) && b[8..] == tail;
      case FlagField(_) =>
        assert b[1..] == tail;
    }
  }

  lemma {:induction false} FieldsBack(fs: List<Field>)
    ensures ReadFields(Kinds(fs), FieldsBytes(fs)) == Some(fs)
  {
    match fs {
      case Nil =>
      case Cons(f, rest) =>
        FieldBack(f, FieldsBytes(rest));
        FieldsBack(rest);
    }
  }

  lemma ShapeOf(m: Message)
    ensures Shape(Domain(m)) == Some(Kinds(Fields(m)))
    ensures Build(Domain(m), Fields(m)) == Some(m)
  {
    var fs := Fields(m);
    var t2 := fs.tail.tail;
    var t4 := t2.tail.tail;
    assert Kinds(t2) == Cons(KindOf(t2.head), Kinds(t2.tail));
    assert Kinds(t4) == if t4.Nil? then Nil else Cons(KindOf(t4.head), Kinds(t4.tail));
    if m.NameRecovery? {
      assert Kinds(t4.tail.tail) == Cons(IsInt, Nil);
    }
  }

  /** Every message of every kind is read back from its bytes, whatever its fields. */
  lemma MessagesRoundTrip(m: Message)
    ensures Decode(Encode(m)) == Some(m)
  {
    FieldsBack(Fields(m));
    ShapeOf(m);
    assert Encode(m)[1..] == FieldsBytes(Fields(m));
  }

  /** What a field is read from is exactly that field's bytes. */
  lemma FieldLayout(kind: Kind, b: seq<Byte>)
    requires ReadField(kind, b).Got?
    ensures b == FieldBytes(ReadField(kind, b).field) + ReadField(kind, b).rest
    ensures KindOf(ReadField(kind, b).field) == kind
  {
    match kind {
      case IsText => TextLayout(b);
      case IsInt => LeBytesOfValue(b[..8]);
      case _ =>
    }
  }

  lemma {:induction false} FieldsLayout(kinds: List<Kind>, b: seq<Byte>)
    requires ReadFields(kinds, b).Some?
    ensures FieldsBytes(ReadFields(kinds, b).value) == b
  {
    match kinds {
      case Nil =>
      case Cons(kind, more) =>
        FieldLayout(kind, b);
        FieldsLayout(more, ReadField(kind, b).rest);
    }
  }

  lemma BuildKeepsFields(domain: Byte, fs: List<Field>)
    requires Build(domain, fs).Some?
    ensures Domain(Build(domain, fs).value) == domain && Fields(Build(domain, fs).value) == fs
  {
    match fs {
      case Cons(TextField(_), Cons(TextField(_), Cons(KeyField(_), Cons(IntField(_), Nil)))) =>
      case Cons(TextField(_), Cons(TextField(_), Cons(KeyField(_), Cons(IntField(_), Cons(FlagField(_), Nil))))) =>
      case Cons(TextField(_), Cons(TextField(_), Cons(TextField(_), Cons(TextField(_), Cons(TextField(_),
             Cons(IntField(_), Cons(IntField(_), Nil))))))) =>
      case Cons(TextField(_), Cons(TextField(_), Cons(TextField(_), Cons(TextField(_), Cons(IntField(_), Nil))))) =>
    }
  }

  /** And only the bytes of a message are read as one: nothing decodes to a message it does not encode. */
  lemma DecodingIsCanonical(b: seq<Byte>)
    requires Decode(b).Some?
    ensures Encode(Decode(b).value) == b
  {
    var kinds := Shape(b[0]).value;
    FieldsLayout(kinds, b[1..]);
    BuildKeepsFields(b[0], ReadFields(kinds, b[1..]).value);
  }

  /** Two messages with the same bytes are the same message, of the same kind. */
  lemma MessagesNeverCollide(a: Message, b: Message)
    requires Encode(a) == Encode(b)
    ensures a == b
  {
    MessagesRoundTrip(a);
    MessagesRoundTrip(b);
  }

  // ---------------------------------------------------------------- the encoders

  method Append(m: seq<Byte>, f: Field) returns (r: seq<Byte>)
    ensures r == m + FieldBytes(f)
  {
    match f {
      case TextField(s) =>
        r := m + LeBytes(|s|, 4);
        r := r + s;
        Assoc(m, LeBytes(|s|, 4), s);
      case KeyField(k) => r := m + k;
      case IntField(n) => r := m + LeBytes(n, 8);
      case FlagField(b) => r := m + [if b then 1 else 0];
    }
  }

  /** One append to the buffer: the next field moves from what is still to be written to what is. */
  method Push(m: seq<Byte>, ghost left: List<Field>, f: Field) returns (r: seq<Byte>)
    requires left.Cons? && left.head == f
    ensures r + FieldsBytes(left.tail) == m + FieldsBytes(left)
  {
    r := Append(m, f);
    Assoc(m, FieldBytes(f), FieldsBytes(left.tail));
  }

  method MessageCore(domain: Byte, contract: Text, account: Text, newKey: PublicKey, round: U64,
                     ghost last: List<Field>)
    returns (m: seq<Byte>)
    ensures m + FieldsBytes(last) == [domain] + FieldsBytes(
              Cons(TextField(contract), Cons(TextField(account), Cons(KeyField(newKey), Cons(IntField(round), last)))))
  {
    ghost var left3 := Cons(IntField(round), last);
    ghost var left2 := Cons(KeyField(newKey), left3);
    ghost var left1 := Cons(TextField(account), left2);
    m := Push([domain], Cons(TextField(contract), left1), TextField(contract));
    m := Push(m, left1, TextField(account));
    m := Push(m, left2, KeyField(newKey));
    m := Push(m, left3, IntField(round));
  }

  method RequestMessage(contract: Text, account: Text, newKey: PublicKey, round: U64) returns (m: seq<Byte>)
    ensures m == Encode(Request(contract, account, newKey, round))
    ensures Decode(m) == Some(Request(contract, account, newKey, round))
  {
    m := MessageCore(1, contract, account, newKey, round, Nil);
    MessagesRoundTrip(Request(contract, account, newKey, round));
  }

  method VerdictMessage(contract: Text, account: Text, newKey: PublicKey, round: U64, approve: bool)
    returns (m: seq<Byte>)
    ensures m == Encode(Verdict(contract, account, newKey, round, approve))
    ensures Decode(m) == Some(Verdict(contract, account, newKey, round, approve))
  {
    ghost var last := Cons(FlagField(approve), Nil);
    m := MessageCore(2, contract, account, newKey, round, last);
    m := Push(m, last, FlagField(approve));
    MessagesRoundTrip(Verdict(contract, account, newKey, round, approve));
  }

  method NameCore(domain: Byte, contract: Text, tla: Text, name: Text, newOwner: Text, ghost last: List<Field>)
    returns (m: seq<Byte>)
    ensures m + FieldsBytes(last) == [domain] + FieldsBytes(
              Cons(TextField(contract), Cons(TextField(tla), Cons(TextField(name), Cons(TextField(newOwner), last)))))
  {
    ghost var left3 := Cons(TextField(newOwner), last);
    ghost var left2 := Cons(TextField(name), left3);
    ghost var left1 := Cons(TextField(tla), left2);
    m := Push([domain], Cons(TextField(contract), left1), TextField(contract));
    m := Push(m, left1, TextField(tla));
    m := Push(m, left2, TextField(name));
    m := Push(m, left3, TextField(newOwner));
  }

  method NameRequestMessage(contract: Text, tla: Text, name: Text, newOwner: Text, round: U64)
    returns (m: seq<Byte>)
    ensures m == Encode(NameRequest(contract, tla, name, newOwner, round))
    ensures Decode(m) == Some(NameRequest(contract, tla, name, newOwner, round))
  {
    ghost var last := Cons(IntField(round), Nil);
    m := NameCore(4, contract, tla, name, newOwner, last);
    m := Push(m, last, IntField(round));
    MessagesRoundTrip(NameRequest(contract, tla, name, newOwner, round));
  }

  method NameRecoveryMessage(contract: Text, tla: Text, name: Text, newOwner: Text, expectedOwner: Text,
                             deadline: U64, round: U64)
    returns (m: seq<Byte>)
    ensures m == Encode(NameRecovery(contract, tla, name, newOwner, expectedOwner, deadline, round))
    ensures Decode(m) == Some(NameRecovery(contract, tla, name, newOwner, expectedOwner, deadline, round))
  {
    ghost var left2 := Cons(IntField(round), Nil);
    ghost var left1 := Cons(IntField(deadline), left2);
    ghost var left := Cons(TextField(expectedOwner), left1);
    m := NameCore(3, contract, tla, name, newOwner, left);
    m := Push(m, left, TextField(expectedOwner));
    m := Push(m, left1, IntField(deadline));
    m := Push(m, left2, IntField(round));
    MessagesRoundTrip(NameRecovery(contract, tla, name, newOwner, expectedOwner, deadline, round));
  }
}
