/** Small definitions shared by the model: an optional value and string concatenation. */
module Prelude {

  datatype Option<+T> = None | Some(value: T)

  /** Python's "".join(parts). */
  function Join(parts: seq<string>): string {
    if parts == [] then "" else parts[0] + Join(parts[1..])
  }

  lemma Assoc<T>(a: seq<T>, b: seq<T>, c: seq<T>)
    ensures (a + b) + c == a + (b + c)
  {
  }

  lemma {:induction false} JoinAppend(parts: seq<string>, last: string)
    ensures Join(parts + [last]) == Join(parts) + last
  {
    if parts == [] {
      assert Join([last]) == last + Join([]) == last;
    } else {
      JoinAppend(parts[1..], last);
      assert (parts + [last])[1..] == parts[1..] + [last];
      Assoc(parts[0], Join(parts[1..]), last);
    }
  }

  lemma {:induction false} JoinConcat(a: seq<string>, b: seq<string>)
    ensures Join(a + b) == Join(a) + Join(b)
  {
    if a == [] {
      assert a + b == b;
    } else {
      JoinConcat(a[1..], b);
      assert (a + b)[1..] == a[1..] + b;
      assert (a + b)[0] == a[0];
      Assoc(a[0], Join(a[1..]), Join(b));
    }
  }
}
