/** The user record and a stand-in for `JSON.stringify` / `JSON.parse` on it.

    The only facts the session code depends on are that parsing what was stringified gives the
    record back and that some stored texts do not parse.  The text format here (each field escaped
    and terminated by ';') is this model's own; it is not JSON. */
module Json {
  import opened Wrappers

  datatype User = User(id: string, name: string, email: string, createdAt: string, updatedAt: string)

  /** '\' and ';' are escaped with a '\'; every other character stands for itself. */
  function Escape(s: string): string {
    if s == [] then []
    else (if s[0] == '\\' || s[0] == ';' then ['\\', s[0]] else [s[0]]) + Escape(s[1..])
  }

  /** One stored field: the escaped text and its terminator. */
  function Field(s: string): string {
    Escape(s) + [';']
  }

  /** Reads one field off the front of `s`: its unescaped text and what follows its terminator. */
  function ReadField(s: string): (r: Option<(string, string)>)
    ensures r.Some? ==> |r.value.1| < |s|
    decreases |s|
  {
    if s == [] then None
    else if s[0] == ';' then Some(([], s[1..]))
    else if s[0] == '\\' then
      if |s| < 2 then None
      else match ReadField(s[2..])
           case None => None
           case Some((f, rest)) => Some(([s[1]] + f, rest))
    else match ReadField(s[1..])
         case None => None
         case Some((f, rest)) => Some(([s[0]] + f, rest))
  }

  /** `JSON.stringify(user)` */
  function Stringify(u: User): string {
    Field(u.id) + (Field(u.name) + (Field(u.email) + (Field(u.createdAt) + Field(u.updatedAt))))
  }

  /** `JSON.parse(text)`, with `None` for the texts on which it throws. */
  function Parse(text: string): Option<User> {
    match ReadField(text)
    case None => None
    case Some((id, r1)) =>
      match ReadField(r1)
      case None => None
      case Some((name, r2)) =>
        match ReadField(r2)
        case None => None
        case Some((email, r3)) =>
          match ReadField(r3)
          case None => None
          case Some((createdAt, r4)) =>
            match ReadField(r4)
            case None => None
            case Some((updatedAt, r5)) =>
              if r5 == [] then Some(User(id, name, email, createdAt, updatedAt)) else None
  }

  /** Reading a field that was written by `Field` gives back its text and leaves what follows. */
  lemma {:induction false} ReadFieldOfField(s: string, rest: string)
    ensures ReadField(Field(s) + rest) == Some((s, rest))
  {
    if s == [] {
      assert Field(s) + rest == [';'] + rest;
    } else {
      var head := if s[0] == '\\' || s[0] == ';' then ['\\', s[0]] else [s[0]];
      assert Field(s) + rest == head + (Field(s[1..]) + rest);
      ReadFieldOfField(s[1..], rest);
      assert [s[0]] + s[1..] == s;
    }
  }

  /** Parsing the stringified record gives the record back. */
  lemma ParseStringify(u: User)
    ensures Parse(Stringify(u)) == Some(u)
  {
    var t5 := Field(u.updatedAt);
    var t4 := Field(u.createdAt) + t5;
    var t3 := Field(u.email) + t4;
    var t2 := Field(u.name) + t3;
    ReadFieldOfField(u.id, t2);
    ReadFieldOfField(u.name, t3);
    ReadFieldOfField(u.email, t4);
    ReadFieldOfField(u.createdAt, t5);
    ReadFieldOfField(u.updatedAt, []);
    assert t5 + [] == t5;
  }

  /** Some stored texts do not parse: the empty text is one. */
  lemma EmptyTextDoesNotParse()
    ensures Parse("") == None
  {
  }
}
