/**
 * Event-name resolution and `emit`: `camelize`, `capitalize` and
 * `toHandlerKey` of lib/x-mini-vue.cjs.js:66-76, and `emit` of
 * packages/runtime-core/src/componentEmit.ts (copied at
 * lib/x-mini-vue.cjs.js:282-287). The handler itself is user code: `emit`
 * yields the call it makes instead of making it.
 */
module ComponentEmit {
  import opened Values
  import opened Wrappers

  /** `\w` of a regular expression without the `u` flag. */
  predicate IsWordChar(c: char)
  {
    ('a' <= c <= 'z') || ('A' <= c <= 'Z') || ('0' <= c <= '9') || c == '_'
  }

  predicate IsLower(c: char)
  {
    'a' <= c <= 'z'
  }

  predicate IsUpper(c: char)
  {
    'A' <= c <= 'Z'
  }

  /** `toUpperCase` on one character, for the ASCII letters. */
  function Upper(c: char): (r: char)
    ensures IsLower(c) ==> IsUpper(r)
    ensures !IsLower(c) ==> r == c
  {
    if IsLower(c) then (c as int - 32) as char else c
  }

  /** `toLowerCase` on one character, for the ASCII letters. */
  function Lower(c: char): (r: char)
    ensures IsUpper(c) ==> IsLower(r)
    ensures !IsUpper(c) ==> r == c
  {
    if IsUpper(c) then (c as int + 32) as char else c
  }

  /**
   * `camelize(str)`: `str.replace(/-(\w)/g, ...)` scans left to right; a "-"
   * followed by a word character is replaced by that character upper-cased
   * and the scan resumes after the pair; any other character is kept.
   */
  function Camelize(s: string): (r: string)
    ensures |r| <= |s|
  {
    if |s| >= 2 && s[0] == '-' && IsWordChar(s[1]) then [Upper(s[1])] + Camelize(s[2..])
    else if s == [] then []
    else [s[0]] + Camelize(s[1..])
  }

  /** The kebab-case spelling of an identifier: an upper-case letter becomes "-" and its lower case. */
  function Hyphenate(s: string): (r: string)
    ensures '-' !in s ==> |r| >= |s|
  {
    if s == [] then []
    else if IsUpper(s[0]) then ['-', Lower(s[0])] + Hyphenate(s[1..])
    else [s[0]] + Hyphenate(s[1..])
  }

  /** A string without "-" is left as it is. */
  lemma {:induction false} CamelizeWithoutDash(s: string)
    requires '-' !in s
    ensures Camelize(s) == s
  {
    if s != [] {
      assert s[0] != '-';
      assert '-' !in s[1..] by {
        forall k | 0 <= k < |s[1..]| ensures s[1..][k] != '-' {
          assert s[1..][k] == s[k + 1];
        }
      }
      CamelizeWithoutDash(s[1..]);
    }
  }

  /** `camelize` undoes the kebab-case spelling of any identifier without "-". */
  lemma {:induction false} CamelizeHyphenate(s: string)
    requires '-' !in s
    ensures Camelize(Hyphenate(s)) == s
  {
    if s != [] {
      assert '-' !in s[1..] by {
        forall k | 0 <= k < |s[1..]| ensures s[1..][k] != '-' {
          assert s[1..][k] == s[k + 1];
        }
      }
      CamelizeHyphenate(s[1..]);
      var h := Hyphenate(s);
      if IsUpper(s[0]) {
        assert h == ['-', Lower(s[0])] + Hyphenate(s[1..]);
        assert h[2..] == Hyphenate(s[1..]);
        assert IsWordChar(h[1]);
      } else {
        assert h == [s[0]] + Hyphenate(s[1..]);
        assert h[1..] == Hyphenate(s[1..]);
      }
    }
  }

  /** The event name of the source's tests. */
  lemma CamelizeAddFoo()
    ensures Camelize("add-foo") == "addFoo"
  {
    assert "add-foo"[3..] == "-foo";
    assert "-foo"[2..] == "oo";
  }

  /** `capitalize(str)`: the first character upper-cased, the rest kept; "" stays "". */
  function Capitalize(s: string): (r: string)
    ensures |r| == |s|
  {
    if s == [] then [] else [Upper(s[0])] + s[1..]
  }

  /** `toHandlerKey(str)`: "" for "", otherwise "on" and the capitalized name. */
  function ToHandlerKey(s: string): (r: string)
    ensures s == [] ==> r == []
    ensures s != [] ==> |r| == |s| + 2 && r[..2] == "on" && r[2] == Upper(s[0]) && r[3..] == s[1..]
  {
    if s == [] then [] else "on" + Capitalize(s)
  }

  /** The event name back from a handler key: drop "on" and lower the next character. */
  function EventOf(handlerKey: string): string
  {
    if |handlerKey| < 3 then [] else [Lower(handlerKey[2])] + handlerKey[3..]
  }

  /** A name that does not start with an upper-case letter is recovered from its handler key. */
  lemma EventOfHandlerKey(s: string)
    requires s == [] || !IsUpper(s[0])
    ensures EventOf(ToHandlerKey(s)) == s
  {
    if s != [] {
      var r := ToHandlerKey(s);
      assert r[3..] == s[1..];
      assert [s[0]] + s[1..] == s;
    }
  }

  /** The call `handler(...args)` that `emit` makes. */
  datatype Call = Call(handler: nat, args: seq<Value>)

  /** `toHandlerKey(camelize(event))`. */
  function HandlerName(event: string): string
  {
    ToHandlerKey(Camelize(event))
  }

  /**
   * `emit(instance, event, ...args)` over the instance's props: the handler
   * is the prop named by the event; a falsy one is skipped, a function is
   * called with the arguments, and any other truthy value throws.
   */
  function Emit(props: map<Key, Value>, event: string, args: seq<Value>): (r: Result<Option<Call>>)
    ensures var handler := if HandlerName(event) in props then props[HandlerName(event)] else Undefined;
      && (r == Ok(None) <==> !Truthy(handler))
      && (r.Ok? && r.value.Some? <==> handler.Func?)
      && (handler.Func? ==> r == Ok(Some(Call(handler.fn, args))))
      && (r == TypeError <==> Truthy(handler) && !handler.Func?)
  {
    var name := HandlerName(event);
    var handler := if name in props then props[name] else Undefined;
    if !Truthy(handler) then Ok(None)
    else if handler.Func? then Ok(Some(Call(handler.fn, args)))
    else TypeError
  }

  /** The source's example: emitting "add-foo" calls the `onAddFoo` prop with the arguments. */
  lemma EmitAddFoo(props: map<Key, Value>, fn: nat, args: seq<Value>)
    requires "onAddFoo" in props && props["onAddFoo"] == Func(fn)
    ensures Emit(props, "add-foo", args) == Ok(Some(Call(fn, args)))
  {
    CamelizeAddFoo();
    assert HandlerName("add-foo") == "onAddFoo";
  }
}
