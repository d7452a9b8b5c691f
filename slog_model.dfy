/** The part of Go's log/slog that the server depends on: attribute values
    and their kinds, the `dropEmpty` ReplaceAttr hook installed in main.go,
    the JSON handler's rule that an empty attribute is not written, and the
    logger that appends one line per call. */
module Slog {
  import opened Wrappers
  import opened Output

  /** An attribute value tagged with its slog kind. Only the kinds the server
      produces are told apart; errors and signals are logged with kind Any. */
  datatype Value =
    | StringValue(str: string)   // slog.KindString (slog.String, a string argument)
    | Int64Value(num: int)       // slog.KindInt64 (slog.Int, slog.Int64)
    | AnyValue(text: string)     // slog.KindAny holding a value (an error, an os.Signal)
    | NilValue                   // the zero slog.Value: kind Any, holding nil

  datatype Attr = Attr(key: string, value: Value)

  /** slog.Attr{}: what `dropEmpty` returns in place of an attribute it blanks. */
  const EmptyAttr := Attr("", NilValue)

  /** slog's Attr.isEmpty: empty key and the zero value. The JSON handler
      skips such an attribute instead of writing it. */
  predicate IsEmpty(a: Attr) {
    a.key == "" && a.value == NilValue
  }

  /** A string-kind attribute whose string is "". */
  predicate IsBlankString(a: Attr) {
    a.value.StringValue? && a.value.str == ""
  }

  /** The `dropEmpty` ReplaceAttr hook: a string-kind attribute with value ""
      becomes the zero attribute; every other attribute, including an integer
      that is 0, is returned as it is. (The hook's group argument is unused.) */
  function DropEmpty(a: Attr): (r: Attr)
    ensures IsBlankString(a) ==> r == EmptyAttr
    ensures !IsBlankString(a) ==> r == a
  {
    if a.value.StringValue? && a.value.str == "" then Attr("", NilValue) else a
  }

  /** Blanking is idempotent: running the hook on its own output changes nothing. */
  lemma DropEmptyIdempotent(a: Attr)
    ensures DropEmpty(DropEmpty(a)) == DropEmpty(a)
    ensures IsEmpty(DropEmpty(a)) <==> IsBlankString(a) || IsEmpty(a)
  {
  }

  /** The attributes the JSON handler writes for a call's attributes: each
      goes through `dropEmpty`, and those that come out empty are skipped. */
  function Render(attrs: seq<Attr>): (r: seq<Attr>)
    ensures |r| <= |attrs|
  {
    if attrs == [] then []
    else
      var a := DropEmpty(attrs[0]);
      (if IsEmpty(a) then [] else [a]) + Render(attrs[1..])
  }

  /** Exactly the attributes that are neither blank strings nor empty are
      written, each unchanged. */
  lemma {:induction false} RenderKeeps(attrs: seq<Attr>)
    ensures forall a :: a in Render(attrs) <==> a in attrs && !IsBlankString(a) && !IsEmpty(a)
  {
    if attrs != [] {
      var rest := attrs[1..];
      RenderKeeps(rest);
      var a := DropEmpty(attrs[0]);
      var head := if IsEmpty(a) then [] else [a];
      assert Render(attrs) == head + Render(rest);
      forall x ensures x in Render(attrs) <==> x in attrs && !IsBlankString(x) && !IsEmpty(x) {
        assert x in attrs <==> x == attrs[0] || x in rest;
        assert x in head <==> x == attrs[0] && !IsBlankString(x) && !IsEmpty(x);
      }
    }
  }

  /** Rendering keeps the order of the attributes it writes. */
  lemma {:induction false} RenderAppend(xs: seq<Attr>, ys: seq<Attr>)
    ensures Render(xs + ys) == Render(xs) + Render(ys)
  {
    if xs == [] {
      assert xs + ys == ys;
    } else {
      assert (xs + ys)[1..] == xs[1..] + ys;
      RenderAppend(xs[1..], ys);
    }
  }

  /** Attributes that are neither blank strings nor empty pass through
      rendering untouched. */
  lemma {:induction false} RenderClean(attrs: seq<Attr>)
    requires forall a :: a in attrs ==> !IsBlankString(a) && !IsEmpty(a)
    ensures Render(attrs) == attrs
  {
    if attrs != [] {
      assert attrs[0] in attrs;
      RenderClean(attrs[1..]);
    }
  }

  /** Rendering twice writes the same attributes as rendering once. */
  lemma RenderIdempotent(attrs: seq<Attr>)
    ensures Render(Render(attrs)) == Render(attrs)
  {
    RenderKeeps(attrs);
    RenderClean(Render(attrs));
  }

  /** The keys of a list of attributes, in order. */
  function Keys(attrs: seq<Attr>): (ks: seq<string>)
    ensures |ks| == |attrs|
    ensures forall i :: 0 <= i < |attrs| ==> ks[i] == attrs[i].key
  {
    if attrs == [] then [] else [attrs[0].key] + Keys(attrs[1..])
  }

  predicate DistinctKeys(attrs: seq<Attr>) {
    forall i, j :: 0 <= i < j < |attrs| ==> attrs[i].key != attrs[j].key
  }

  /** The value of the first attribute with the given key, as a reader of the
      written JSON object would find it. */
  function Lookup(attrs: seq<Attr>, key: string): (v: Option<Value>)
    ensures v.Some? <==> key in Keys(attrs)
    ensures v.Some? ==> Attr(key, v.value) in attrs
  {
    if attrs == [] then None
    else if attrs[0].key == key then Some(attrs[0].value)
    else Lookup(attrs[1..], key)
  }

  /** With distinct keys, looking up an attribute's key finds that attribute. */
  lemma {:induction false} LookupAt(attrs: seq<Attr>, i: nat)
    requires DistinctKeys(attrs)
    requires i < |attrs|
    ensures Lookup(attrs, attrs[i].key) == Some(attrs[i].value)
  {
    if i > 0 {
      var rest := attrs[1..];
      assert DistinctKeys(rest) by {
        forall j, k | 0 <= j < k < |rest| ensures rest[j].key != rest[k].key {
          assert rest[j] == attrs[j + 1] && rest[k] == attrs[k + 1];
        }
      }
      LookupAt(rest, i - 1);
      assert attrs[0].key != attrs[i].key;
    }
  }

  /** What a blank string looks like once written: absent. */
  function Written(v: Option<Value>): Option<Value> {
    if v == Some(StringValue("")) then None else v
  }

  /** With distinct, non-empty keys, a key is found in the written record
      with the value it was given, unless that value is the empty string,
      in which case the key is missing from the record. */
  lemma {:induction false} LookupRender(attrs: seq<Attr>, key: string)
    requires DistinctKeys(attrs)
    requires key != ""
    ensures Lookup(Render(attrs), key) == Written(Lookup(attrs, key))
  {
    if attrs != [] {
      var rest := attrs[1..];
      assert DistinctKeys(rest) by {
        forall i, j | 0 <= i < j < |rest| ensures rest[i].key != rest[j].key {
          assert rest[i] == attrs[i + 1] && rest[j] == attrs[j + 1];
        }
      }
      LookupRender(rest, key);
      var a := DropEmpty(attrs[0]);
      var head := if IsEmpty(a) then [] else [a];
      assert Render(attrs) == head + Render(rest);
      LookupAppend(head, Render(rest), key);
      if attrs[0].key == key {
        assert key !in Keys(rest) by {
          forall i | 0 <= i < |rest| ensures Keys(rest)[i] != key {
            assert rest[i] == attrs[i + 1];
          }
        }
      }
    }
  }

  lemma {:induction false} LookupAppend(xs: seq<Attr>, ys: seq<Attr>, key: string)
    ensures Lookup(xs + ys, key) == if Lookup(xs, key).Some? then Lookup(xs, key) else Lookup(ys, key)
  {
    if xs != [] {
      assert (xs + ys)[1..] == xs[1..] + ys;
      LookupAppend(xs[1..], ys, key);
    } else {
      assert xs + ys == ys;
    }
  }

  datatype Level = LevelInfo | LevelError

  /** One JSON object written to standard output: level, message and the
      attributes that survived rendering (the time stamp is not modelled). */
  datatype Line = Line(level: Level, msg: string, attrs: seq<Attr>)

  /** The line a logging call with these arguments writes. */
  function Emit(level: Level, msg: string, attrs: seq<Attr>): Line {
    Line(level, msg, Render(attrs))
  }

  /** A *slog.Logger with a JSON handler on standard output and `dropEmpty`
      as its ReplaceAttr hook; `lines` is everything it has written, and
      `trace` the process-wide record of output it also appends to. */
  class Logger {
    var lines: seq<Line>
    ghost const trace: Trace

    constructor (trace: Trace)
      ensures lines == [] && this.trace == trace
    {
      lines := [];
      this.trace := trace;
    }

    /** log.Info: appends exactly one line, at level INFO. */
    method Info(msg: string, attrs: seq<Attr>)
      modifies this, trace
      ensures lines == old(lines) + [Emit(LevelInfo, msg, attrs)]
      ensures trace.events == old(trace.events) + [LineLogged(|old(lines)|)]
    {
      lines := lines + [Emit(LevelInfo, msg, attrs)];
      trace.events := trace.events + [LineLogged(|lines| - 1)];
    }

    /** log.Error: appends exactly one line, at level ERROR. */
    method Error(msg: string, attrs: seq<Attr>)
      modifies this, trace
      ensures lines == old(lines) + [Emit(LevelError, msg, attrs)]
      ensures trace.events == old(trace.events) + [LineLogged(|old(lines)|)]
    {
      lines := lines + [Emit(LevelError, msg, attrs)];
      trace.events := trace.events + [LineLogged(|lines| - 1)];
    }
  }
}
