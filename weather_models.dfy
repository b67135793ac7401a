/** The weather store of the chi HTTP server's `models` package: a map from
    city name to the weather record last stored for it, with whole-record upsert
    and hard delete. Each method is one critical section of the store's
    reader-writer lock. */
module WeatherModels {
  import opened Wrappers
  import opened GoTypes
  import Collections

  /** `models.Weather`. */
  datatype Weather = Weather(city: string, temperature: Float64, updatedAt: Time)

  class WeatherStorage {
    var weathers: map<string, Weather>

    /** Every record is stored under its own city: UpdateWeather keys by `w.City`. */
    ghost predicate Valid()
      reads this
    {
      forall c :: c in weathers ==> weathers[c].city == c
    }

    /** NewWeatherStorage: an empty store. */
    constructor ()
      ensures Valid() && weathers == map[]
    {
      weathers := map[];
    }

    /** Every stored record, one per city, in no particular order. */
    method GetAllWeathers() returns (r: seq<Weather>)
      requires Valid()
      ensures |r| == |weathers|
      ensures forall i :: 0 <= i < |r| ==> r[i].city in weathers && weathers[r[i].city] == r[i]
      ensures forall i, j :: 0 <= i < j < |r| ==> r[i].city != r[j].city
      ensures forall c :: c in weathers ==> exists i :: 0 <= i < |r| && r[i].city == c
    {
      ghost var keys;
      r, keys := Collections.CollectValues(weathers);
      assert forall i :: 0 <= i < |r| ==> r[i].city == keys[i];
      forall c | c in weathers ensures exists i :: 0 <= i < |r| && r[i].city == c {
        var i :| 0 <= i < |keys| && keys[i] == c;
        assert r[i].city == c;
      }
    }

    /** Whole-record upsert keyed by the record's own city. */
    method UpdateWeather(w: Weather)
      requires Valid()
      modifies this
      ensures Valid()
      ensures weathers.Keys == old(weathers).Keys + {w.city}
      ensures weathers[w.city] == w
      ensures forall c :: c in old(weathers) && c != w.city ==> weathers[c] == old(weathers)[c]
    {
      weathers := weathers[w.city := w];
    }

    /** Hard delete; a city that is not stored is left alone, without error. */
    method DeleteWeather(city: string)
      requires Valid()
      modifies this
      ensures Valid()
      ensures weathers.Keys == old(weathers).Keys - {city}
      ensures forall c :: c in weathers ==> weathers[c] == old(weathers)[c]
      ensures city !in old(weathers) ==> weathers == old(weathers)
    {
      weathers := weathers - {city};
    }

    /** The record stored for `city`, or nil. */
    method GetWeather(city: string) returns (r: Option<Weather>)
      ensures city in weathers ==> r == Some(weathers[city])
      ensures city !in weathers ==> r == None
    {
      if city !in weathers {
        return None;
      }
      r := Some(weathers[city]);
    }
  }

  /** A new store lists nothing. */
  method NewStorageIsEmpty() returns (all: seq<Weather>)
    ensures all == []
  {
    var s := new WeatherStorage();
    all := s.GetAllWeathers();
  }

  /** Storing the same record twice leaves the map of storing it once. */
  method UpdateTwice(s: WeatherStorage, w: Weather)
    requires s.Valid()
    modifies s
    ensures s.Valid()
    ensures s.weathers == old(s.weathers)[w.city := w]
  {
    s.UpdateWeather(w);
    s.UpdateWeather(w);
  }

  /** After a delete the city reads as absent, whether or not it was stored. */
  method DeleteThenGet(s: WeatherStorage, city: string) returns (got: Option<Weather>)
    requires s.Valid()
    modifies s
    ensures got == None
  {
    s.DeleteWeather(city);
    got := s.GetWeather(city);
  }
}
