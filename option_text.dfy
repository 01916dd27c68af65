/**
 * The `option` handler's echo of the selected key:
 * `key.toLowerCase().replace(/_/g, ' #')`, over ASCII.
 */
module OptionText {

  predicate IsUpperAscii(c: char) {
    'A' <= c <= 'Z'
  }

  /** `toLowerCase` on one character: ASCII capitals map to their small letter, all else is kept. */
  function LowerChar(c: char): (r: char)
    ensures !IsUpperAscii(r)
    ensures !IsUpperAscii(c) ==> r == c
    ensures IsUpperAscii(c) ==> 'a' <= r <= 'z' && r as int - c as int == 'a' as int - 'A' as int
  {
    if IsUpperAscii(c) then (c as int - 'A' as int + 'a' as int) as char else c
  }

  function ToLower(s: string): (r: string) {
    if s == [] then [] else [LowerChar(s[0])] + ToLower(s[1..])
  }

  /** `replace(/_/g, ' #')`: every underscore, not only the first, becomes " #". */
  function ReplaceUnderscores(s: string): (r: string) {
    if s == [] then [] else (if s[0] == '_' then " #" else [s[0]]) + ReplaceUnderscores(s[1..])
  }

  /** The text the `option` handler echoes for a resolved key. */
  function SelectedOption(key: string): (echo: string) {
    ReplaceUnderscores(ToLower(key))
  }

  /** Turns every " #" back into an underscore: the inverse of ReplaceUnderscores on keys without '#'. */
  function RestoreUnderscores(t: string): (s: string) {
    if t == [] then []
    else if |t| >= 2 && t[0] == ' ' && t[1] == '#' then "_" + RestoreUnderscores(t[2..])
    else [t[0]] + RestoreUnderscores(t[1..])
  }

  lemma {:induction false} ToLowerAt(s: string)
    ensures |ToLower(s)| == |s|
    ensures forall i :: 0 <= i < |s| ==> ToLower(s)[i] == LowerChar(s[i])
  {
    if s != [] {
      ToLowerAt(s[1..]);
      assert forall i :: 1 <= i < |s| ==> ToLower(s)[i] == ToLower(s[1..])[i - 1];
    }
  }

  lemma {:induction false} ToLowerConcat(a: string, b: string)
    ensures ToLower(a + b) == ToLower(a) + ToLower(b)
  {
    if a == [] {
      assert a + b == b;
    } else {
      assert (a + b)[1..] == a[1..] + b;
      ToLowerConcat(a[1..], b);
    }
  }

  lemma {:induction false} ReplaceUnderscoresConcat(a: string, b: string)
    ensures ReplaceUnderscores(a + b) == ReplaceUnderscores(a) + ReplaceUnderscores(b)
  {
    if a == [] {
      assert a + b == b;
    } else {
      assert (a + b)[1..] == a[1..] + b;
      ReplaceUnderscoresConcat(a[1..], b);
    }
  }

  /** A string without underscores is left as it is. */
  lemma {:induction false} ReplaceUnderscoresIdentity(s: string)
    requires '_' !in s
    ensures ReplaceUnderscores(s) == s
  {
    if s != [] {
      assert s == [s[0]] + s[1..];
      ReplaceUnderscoresIdentity(s[1..]);
    }
  }

  /**
   * The replacement is global: no underscore is left, no capital is introduced,
   * and each underscore adds exactly one character.
   */
  lemma {:induction false} ReplaceUnderscoresShape(s: string)
    ensures '_' !in ReplaceUnderscores(s)
    ensures (forall i :: 0 <= i < |s| ==> !IsUpperAscii(s[i])) ==>
              forall j :: 0 <= j < |ReplaceUnderscores(s)| ==> !IsUpperAscii(ReplaceUnderscores(s)[j])
    ensures |ReplaceUnderscores(s)| == |s| + multiset(s)['_']
  {
    if s != [] {
      ReplaceUnderscoresShape(s[1..]);
      assert s == [s[0]] + s[1..];
      assert multiset(s) == multiset{s[0]} + multiset(s[1..]);
      var head := if s[0] == '_' then " #" else [s[0]];
      assert ReplaceUnderscores(s) == head + ReplaceUnderscores(s[1..]);
      if forall i :: 0 <= i < |s| ==> !IsUpperAscii(s[i]) {
        assert forall i :: 0 <= i < |s[1..]| ==> !IsUpperAscii(s[1..][i]);
        forall j | 0 <= j < |ReplaceUnderscores(s)|
          ensures !IsUpperAscii(ReplaceUnderscores(s)[j])
        {
          if j >= |head| {
            assert ReplaceUnderscores(s)[j] == ReplaceUnderscores(s[1..])[j - |head|];
          }
        }
      }
    }
  }

  /** Lower-casing keeps every underscore and adds none. */
  lemma {:induction false} ToLowerUnderscores(s: string)
    ensures multiset(ToLower(s))['_'] == multiset(s)['_']
  {
    if s != [] {
      ToLowerUnderscores(s[1..]);
      assert s == [s[0]] + s[1..];
      assert ToLower(s) == [LowerChar(s[0])] + ToLower(s[1..]);
      assert multiset(s) == multiset{s[0]} + multiset(s[1..]);
      assert multiset(ToLower(s)) == multiset{LowerChar(s[0])} + multiset(ToLower(s[1..]));
    }
  }

  /**
   * What the `option` handler echoes holds no underscore and no ASCII capital,
   * and is as long as the key plus the number of underscores in it.
   */
  lemma SelectedOptionShape(key: string)
    ensures '_' !in SelectedOption(key)
    ensures forall j :: 0 <= j < |SelectedOption(key)| ==> !IsUpperAscii(SelectedOption(key)[j])
    ensures |SelectedOption(key)| == |key| + multiset(key)['_']
  {
    ToLowerAt(key);
    ToLowerUnderscores(key);
    ReplaceUnderscoresShape(ToLower(key));
  }

  /** Turning " #" back into "_" recovers the input, for inputs without '#'. */
  lemma {:induction false} RestoreAfterReplace(s: string)
    requires '#' !in s
    ensures RestoreUnderscores(ReplaceUnderscores(s)) == s
  {
    if s != [] {
      assert s == [s[0]] + s[1..];
      var rest := ReplaceUnderscores(s[1..]);
      RestoreAfterReplace(s[1..]);
      if s[0] == '_' {
        assert ReplaceUnderscores(s) == " #" + rest;
        assert (" #" + rest)[2..] == rest;
      } else {
        assert ReplaceUnderscores(s) == [s[0]] + rest;
        if |rest| >= 1 && s[0] == ' ' {
          assert s[1..] == [s[1]] + s[2..];
          assert rest[0] != '#';
        }
        assert ([s[0]] + rest)[1..] == rest;
      }
    }
  }

  /** Two keys without '#' that echo the same text lower-case to the same string. */
  lemma SelectedOptionInjective(k1: string, k2: string)
    requires '#' !in k1 && '#' !in k2
    requires SelectedOption(k1) == SelectedOption(k2)
    ensures ToLower(k1) == ToLower(k2)
  {
    ToLowerAt(k1);
    ToLowerAt(k2);
    RestoreAfterReplace(ToLower(k1));
    RestoreAfterReplace(ToLower(k2));
  }

  /**
   * An `ITEM_<n>` key echoes the lower-cased title `Item #<n>`, for any suffix
   * `n` without an underscore.
   */
  lemma TitleEcho(n: string)
    requires '_' !in n
    ensures SelectedOption("ITEM_" + n) == ToLower("Item #" + n)
  {
    ToLowerConcat("ITEM_", n);
    ToLowerConcat("Item #", n);
    ReplaceUnderscoresConcat(ToLower("ITEM_"), ToLower(n));
    ToLowerAt(n);
    assert '_' !in ToLower(n);
    ReplaceUnderscoresIdentity(ToLower(n));
    ToLowerAt("ITEM_");
    ToLowerAt("Item #");
    assert ToLower("ITEM_") == "item_";
    assert ToLower("Item #") == "item #";
    assert ReplaceUnderscores("item_") == "item #";
  }

  /** The first item's key echoes "item #1". */
  lemma SelectFirstItem()
    ensures SelectedOption("ITEM_1") == "item #1"
  {
    TitleEcho("1");
    ToLowerAt("Item #1");
    assert ToLower("Item #1") == "item #1";
  }
}
