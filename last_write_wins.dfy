/**
 * The dictionary fold of the schema builder: walking a sequence in order and
 * writing `dict[key(x)] = value(x)` for each element, so that a later element
 * with the same key overwrites an earlier one.
 */
module LastWriteWins {

  /** The dictionary holding `value(x)` for each `x` of `s`, written in order. */
  function Assign<T, V>(s: seq<T>, key: T -> string, value: T -> V): map<string, V>
  {
    if s == [] then map[]
    else Assign(s[..|s| - 1], key, value)[key(s[|s| - 1]) := value(s[|s| - 1])]
  }

  /** `j` is the last position of `s` whose key is `key(s[j])`. */
  ghost predicate LastWithKey<T>(s: seq<T>, key: T -> string, j: int)
  {
    0 <= j < |s| && forall k :: j < k < |s| ==> key(s[k]) != key(s[j])
  }

  /** The dictionary's keys are exactly the keys of the elements. */
  lemma {:induction false} AssignKeys<T, V>(s: seq<T>, key: T -> string, value: T -> V)
    ensures Assign(s, key, value).Keys == set x | x in s :: key(x)
  {
    if s != [] {
      var init := s[..|s| - 1];
      AssignKeys(init, key, value);
      assert s == init + [s[|s| - 1]];
      assert (set x | x in s :: key(x)) == (set x | x in init :: key(x)) + {key(s[|s| - 1])};
    }
  }

  /** Each key holds the value of the last element carrying it. */
  lemma {:induction false} AssignLastWins<T, V>(s: seq<T>, key: T -> string, value: T -> V, j: int)
    requires LastWithKey(s, key, j)
    ensures key(s[j]) in Assign(s, key, value)
    ensures Assign(s, key, value)[key(s[j])] == value(s[j])
  {
    if j < |s| - 1 {
      var init := s[..|s| - 1];
      assert LastWithKey(init, key, j) by {
        forall k | j < k < |init| ensures key(init[k]) != key(init[j]) {
          assert init[k] == s[k];
        }
      }
      AssignLastWins(init, key, value, j);
    }
  }

  /** Writing one more element updates the dictionary at that element's key. */
  lemma AssignSnoc<T, V>(s: seq<T>, x: T, key: T -> string, value: T -> V)
    ensures Assign(s + [x], key, value) == Assign(s, key, value)[key(x) := value(x)]
  {
    assert (s + [x])[..|s|] == s;
  }
}
