/** The masking of sensitive data in the logger (lib/logger.ts). A logged value is a
    JavaScript value: a long string that mentions a token, key, secret or password
    keeps only its first and last four characters, and an object gets a shallow copy
    in which each of a fixed list of sensitive fields is masked. */
module Logger {
  import Text

  /** The JavaScript values the masking distinguishes. Numbers are integers here;
      arrays are objects whose keys are their indices. */
  datatype Value = Str(s: string) | Num(n: int) | Bool(b: bool) | Null | Undefined
                 | Obj(fields: map<string, Value>)

  /** `!data`: the empty string, zero, `false`, `null` and `undefined`. */
  predicate Falsy(v: Value)
  {
    v == Str("") || v == Num(0) || v == Bool(false) || v == Null || v == Undefined
  }

  /** The words that mark a string as sensitive. */
  predicate MentionsSecret(s: string)
  {
    Text.Contains(s, "token") || Text.Contains(s, "key") || Text.Contains(s, "secret")
    || Text.Contains(s, "password")
  }

  /** The first four characters, four stars, and the last four characters. */
  function Hide(s: string): (r: string)
    requires |s| >= 4
    ensures |r| == 12 && r[..4] == s[..4] && r[4..8] == "****" && r[8..] == s[|s| - 4..]
  {
    s[..4] + "****" + s[|s| - 4..]
  }

  /** The string branch: a string longer than 10 characters that mentions a secret
      is hidden; any other string is returned as it is. */
  function MaskString(s: string): (r: string)
  {
    if |s| > 10 && MentionsSecret(s) then Hide(s) else s
  }

  /** The field names masked inside an object. */
  const SensitiveFields: seq<string> :=
    ["token", "apikey", "api_key", "secret", "password", "turnstileToken",
     "APIFY_TOKEN", "TURNSTILE_SECRET_KEY", "CRON_SECRET", "encryptedKey"]

  /** A sensitive field's new value: a string longer than 8 characters is hidden,
      anything else becomes four stars. */
  function MaskField(v: Value): (r: Value)
  {
    if v.Str? && |v.s| > 8 then Str(Hide(v.s)) else Str("****")
  }

  /** The copy after the loop has visited the fields `fs`, in order: a field that is
      present and truthy is masked. */
  function MaskFields(m: map<string, Value>, fs: seq<string>): map<string, Value>
  {
    if |fs| == 0 then m
    else
      var m' := MaskFields(m, fs[..|fs| - 1]);
      var f := fs[|fs| - 1];
      if f in m' && !Falsy(m'[f]) then m'[f := MaskField(m'[f])] else m'
  }

  /** `maskSensitiveData`. */
  function Mask(v: Value): Value
  {
    if Falsy(v) then v
    else if v.Str? then Str(MaskString(v.s))
    else if v.Obj? then Obj(MaskFields(v.fields, SensitiveFields))
    else v
  }

  /** The loop over the sensitive fields, on a fresh copy of the object's fields. */
  method MaskObject(fields: map<string, Value>) returns (masked: map<string, Value>)
    ensures masked == MaskFields(fields, SensitiveFields)
  {
    masked := fields;
    for i := 0 to |SensitiveFields|
      invariant masked == MaskFields(fields, SensitiveFields[..i])
    {
      assert SensitiveFields[..i + 1][..i] == SensitiveFields[..i];
      var field := SensitiveFields[i];
      if field in masked && !Falsy(masked[field]) {
        var value := masked[field];
        if value.Str? && |value.s| > 8 {
          masked := masked[field := Str(value.s[..4] + "****" + value.s[|value.s| - 4..])];
        } else {
          masked := masked[field := Str("****")];
        }
      }
    }
    assert SensitiveFields[..|SensitiveFields|] == SensitiveFields;
  }

  /** `maskSensitiveData` with its loop. */
  method MaskSensitiveData(data: Value) returns (r: Value)
    ensures r == Mask(data)
  {
    if Falsy(data) {
      return data;
    }
    if data.Str? {
      var s := data.s;
      if |s| > 10 && MentionsSecret(s) {
        return Str(s[..4] + "****" + s[|s| - 4..]);
      }
      return data;
    }
    if data.Obj? {
      var masked := MaskObject(data.fields);
      return Obj(masked);
    }
    return data;
  }

  /** Exactly the listed fields that are present and truthy are masked; every other
      field, and the set of fields, is kept. */
  lemma {:induction false} MaskFieldsExact(m: map<string, Value>, fs: seq<string>)
    requires forall i, j :: 0 <= i < j < |fs| ==> fs[i] != fs[j]
    ensures MaskFields(m, fs).Keys == m.Keys
    ensures forall k :: k in m ==>
              MaskFields(m, fs)[k] == if k in fs && !Falsy(m[k]) then MaskField(m[k]) else m[k]
  {
    if |fs| > 0 {
      var init := fs[..|fs| - 1];
      MaskFieldsExact(m, init);
      var f := fs[|fs| - 1];
      assert f !in init;
      forall k | k in m
        ensures MaskFields(m, fs)[k] == if k in fs && !Falsy(m[k]) then MaskField(m[k]) else m[k]
      {
        assert k in fs <==> k in init || k == f;
      }
    }
  }

  /** The object branch in one statement: the copy has the same fields, a sensitive
      field that is set is masked and every other field is unchanged. */
  lemma MaskObjectFields(fields: map<string, Value>)
    ensures Mask(Obj(fields)).Obj? && Mask(Obj(fields)).fields.Keys == fields.Keys
    ensures forall k :: k in fields ==>
              Mask(Obj(fields)).fields[k] ==
                if k in SensitiveFields && !Falsy(fields[k]) then MaskField(fields[k]) else fields[k]
  {
    MaskFieldsExact(fields, SensitiveFields);
  }

  /** A masked field shows at most eight characters of the original: it is four
      stars, or the first and last four characters around four stars. */
  lemma MaskFieldHides(v: Value)
    ensures var r := MaskField(v);
      r.Str? && !Falsy(r)
      && (r.s == "****" || (v.Str? && |v.s| > 8 && r.s[..4] == v.s[..4] && r.s[4..8] == "****"
                             && r.s[8..] == v.s[|v.s| - 4..] && |r.s| == 12))
  {
  }

  /** Only a string longer than 10 characters that mentions a secret is changed, and
      such a string always comes out as its first and last four characters around
      four stars. */
  lemma MaskStringCases(s: string)
    ensures MaskString(s) != s ==> |s| > 10 && MentionsSecret(s)
    ensures |s| > 10 && MentionsSecret(s) ==>
              |MaskString(s)| == 12 && MaskString(s)[..4] == s[..4] && MaskString(s)[4..8] == "****"
              && MaskString(s)[8..] == s[|s| - 4..]
  {
  }

  /** Masking is idempotent: masking a masked value changes nothing. */
  lemma MaskTwice(v: Value)
    ensures Mask(Mask(v)) == Mask(v)
  {
    if !Falsy(v) && v.Str? {
      var m := MaskString(v.s);
      if m != v.s {
        assert Hide(m) == m;
      }
    } else if !Falsy(v) && v.Obj? {
      var once := MaskFields(v.fields, SensitiveFields);
      MaskObjectFields(v.fields);
      MaskObjectFields(once);
      var twice := MaskFields(once, SensitiveFields);
      forall k | k in once
        ensures twice[k] == once[k]
      {
        if k in SensitiveFields && !Falsy(v.fields[k]) {
          var r := once[k];
          if |r.s| > 8 {
            assert Hide(r.s) == r.s;
          }
        }
      }
      assert twice == once;
    }
  }

  /** Values that are neither strings nor objects, and falsy values, pass through. */
  lemma MaskKeepsOthers(v: Value)
    ensures Falsy(v) || v.Num? || v.Bool? ==> Mask(v) == v
    ensures Mask(v).Str? <==> v.Str?
    ensures Mask(v).Obj? <==> v.Obj?
  {
  }
}
