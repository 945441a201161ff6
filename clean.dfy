/** `clean_review_data`: makes every field of a scraped review JSON-encodable before
    it is posted to the store. */
module Clean {
  import opened PyValue

  /** One field. The source dispatches on the type: `None`, `str`, `int`, `float` and
      `bool` pass; a `list` or `dict` passes when `json.dumps` accepts it and is
      otherwise replaced by `str(value)`; anything else becomes `str(value)`. That
      dispatch amounts to: encodable values pass unchanged, the rest are stringified. */
  function CleanValue(v: Value, show: Value -> string): (r: Value)
    ensures r == if Serializable(v) then v else Str(show(v))
  {
    match v
    case Null => v
    case Str(_) => v
    case Int(_) => v
    case Float(_) => v
    case Bool(_) => v
    case List(_) => if Serializable(v) then v else Str(show(v))
    case Dict(_) => if Serializable(v) then v else Str(show(v))
    case _ => Str(show(v))
  }

  /** The cleaned record, key by key. */
  function CleanItem(item: Item, show: Value -> string): (r: Item)
    ensures r.Keys == item.Keys
    ensures forall k | k in r :: r[k] == CleanValue(item[k], show)
  {
    map k | k in item :: CleanValue(item[k], show)
  }

  /** Every field of a cleaned record is encodable, so the source's second
      `json.dumps({'review_data': ...})` never raises. */
  lemma CleanedIsSerializable(item: Item, show: Value -> string)
    ensures Serializable(Dict(CleanItem(item, show)))
  {
    var r := CleanItem(item, show);
    forall k | k in r ensures Serializable(r[k]) {
      assert r[k] == CleanValue(item[k], show);
    }
  }

  /** Cleaning a cleaned record changes nothing. */
  lemma CleanIdempotent(item: Item, show: Value -> string)
    ensures CleanItem(CleanItem(item, show), show) == CleanItem(item, show)
  {
    var once := CleanItem(item, show);
    var twice := CleanItem(once, show);
    forall k | k in once ensures twice[k] == once[k] {
      assert once[k] == CleanValue(item[k], show);
      assert Serializable(once[k]);
    }
  }

  /** A record that is already encodable is left exactly as it is: this is the case of
      every record that arrives as decoded JSON. */
  lemma CleanKeepsEncodable(item: Item, show: Value -> string)
    requires Serializable(Dict(item))
    ensures CleanItem(item, show) == item
  {
    var r := CleanItem(item, show);
    forall k | k in item ensures r[k] == item[k] {
      assert Serializable(item[k]);
    }
  }

  /** The source's loop: fill `cleaned` one field at a time. */
  method CleanReviewData(item: Item, show: Value -> string) returns (cleaned: Item)
    ensures cleaned.Keys == item.Keys
    ensures forall k | k in item :: cleaned[k] == CleanValue(item[k], show)
    ensures Serializable(Dict(cleaned))
  {
    cleaned := map[];
    var pending := item.Keys;
    while pending != {}
      invariant pending <= item.Keys
      invariant cleaned.Keys == item.Keys - pending
      invariant forall k | k in cleaned :: cleaned[k] == CleanValue(item[k], show)
      decreases pending
    {
      var key :| key in pending;
      var value := item[key];
      if value.Null? {
        cleaned := cleaned[key := Null];
      } else if value.Str? || value.Int? || value.Float? || value.Bool? {
        cleaned := cleaned[key := value];
      } else if value.List? || value.Dict? {
        if Serializable(value) {
          cleaned := cleaned[key := value];
        } else {
          cleaned := cleaned[key := Str(show(value))];
        }
      } else {
        cleaned := cleaned[key := Str(show(value))];
      }
      pending := pending - {key};
    }
    assert cleaned == CleanItem(item, show);
    CleanedIsSerializable(item, show);
  }
}
