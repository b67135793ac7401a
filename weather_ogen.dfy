/** The weather store and request handlers of the chi + OpenAPI (ogen) HTTP
    server: a map from the city in the request path to the weather record last
    stored for it, a GET handler that turns "absent" into a 404 error value, a PUT
    handler that builds the record from the path and the request body, and the
    fallback that turns any other error into a 500 response. Each storage method
    is one critical section of the store's reader-writer lock; the current time is
    a parameter. */
module WeatherOgen {
  import opened Wrappers
  import opened GoTypes

  /** `weather_v1.Weather`. */
  datatype Weather = Weather(city: string, temperature: Float64, updatedAt: Time)

  /** `weather_v1.UpdateWeatherRequest`: the body of a PUT. */
  datatype UpdateWeatherRequest = UpdateWeatherRequest(temperature: Float64)

  /** `weather_v1.NotFoundError`. */
  datatype NotFoundError = NotFoundError(code: int, message: string)

  /** `weather_v1.GetWeatherByCityRes`: the GET handler answers with a record or
      with a not-found error value. */
  datatype GetWeatherByCityRes = WeatherFound(weather: Weather) | WeatherNotFound(notFound: NotFoundError)

  /** `weather_v1.GenericError` with its optional code and message, and the
      `GenericErrorStatusCode` that carries it with an HTTP status. */
  datatype GenericError = GenericError(code: Option<int>, message: Option<string>)
  datatype GenericErrorStatusCode = GenericErrorStatusCode(statusCode: int, response: GenericError)

  /** The error value GET returns for a city with no record. */
  function CityNotFound(city: string): NotFoundError {
    NotFoundError(404, "Weather data not found for city: " + city)
  }

  class WeatherStorage {
    var weathers: map<string, Weather>

    /** NewWeatherStorage: an empty store. */
    constructor ()
      ensures weathers == map[]
    {
      weathers := map[];
    }

    /** The record stored for `city`, or nil. */
    method GetWeather(city: string) returns (r: Option<Weather>)
      ensures city in weathers ==> r == Some(weathers[city])
      ensures city !in weathers ==> r == None
    {
      if city !in weathers {
        return None;
      }
      r := Some(weathers[city]);
    }

    /** Whole-record upsert under the given city, whatever the record says. */
    method UpdateWeather(city: string, weather: Weather)
      modifies this
      ensures weathers.Keys == old(weathers).Keys + {city}
      ensures weathers[city] == weather
      ensures forall c :: c in old(weathers) && c != city ==> weathers[c] == old(weathers)[c]
    {
      weathers := weathers[city := weather];
    }
  }

  class WeatherHandler {
    const storage: WeatherStorage

    /** Every record the handler stores lies under its own city: the PUT handler
        takes the record's city from the same path parameter it stores under. */
    ghost predicate Valid()
      reads this, storage
    {
      forall c :: c in storage.weathers ==> storage.weathers[c].city == c
    }

    /** NewWeatherHandler. */
    constructor (storage: WeatherStorage)
      ensures this.storage == storage
    {
      this.storage := storage;
    }

    /** GET /weather/{city}: the stored record, or a 404 error value naming the city. */
    method GetWeatherByCity(city: string) returns (r: GetWeatherByCityRes)
      ensures city in storage.weathers ==> r == WeatherFound(storage.weathers[city])
      ensures city !in storage.weathers ==>
                r == WeatherNotFound(NotFoundError(404, "Weather data not found for city: " + city))
    {
      var weather := storage.GetWeather(city);
      if weather.None? {
        return WeatherNotFound(CityNotFound(city));
      }
      r := WeatherFound(weather.value);
    }

    /** PUT /weather/{city}: builds the record from the path city, the body's
        temperature and `now`, stores it under the path city and returns it. */
    method UpdateWeatherByCity(req: UpdateWeatherRequest, city: string, now: Time) returns (r: Weather)
      modifies storage
      ensures r.city == city && r.temperature == req.temperature && r.updatedAt == now
      ensures storage.weathers.Keys == old(storage.weathers).Keys + {city}
      ensures storage.weathers[city] == r
      ensures forall c :: c in old(storage.weathers) && c != city ==> storage.weathers[c] == old(storage.weathers)[c]
      ensures old(Valid()) ==> Valid()
    {
      var weather := Weather(city, req.temperature, now);
      storage.UpdateWeather(city, weather);
      r := weather;
    }

    /** The response for any error the handlers or the router raise: HTTP 500,
        with code 500 and the error's message in the body. */
    function NewError(errMessage: string): (r: GenericErrorStatusCode)
      ensures r.statusCode == 500
      ensures r.response.code == Some(500) && r.response.message == Some(errMessage)
    {
      GenericErrorStatusCode(500, GenericError(Some(500), Some(errMessage)))
    }
  }

  /** Storing the same record twice under the same city leaves the map of storing it once. */
  method UpdateTwice(s: WeatherStorage, city: string, w: Weather)
    modifies s
    ensures s.weathers == old(s.weathers)[city := w]
  {
    s.UpdateWeather(city, w);
    s.UpdateWeather(city, w);
  }

  /** A PUT followed by a GET of the same city returns the record the PUT returned. */
  method PutThenGet(h: WeatherHandler, req: UpdateWeatherRequest, city: string, now: Time)
    returns (put: Weather, got: GetWeatherByCityRes)
    modifies h.storage
    ensures got == WeatherFound(put)
    ensures put == Weather(city, req.temperature, now)
  {
    put := h.UpdateWeatherByCity(req, city, now);
    got := h.GetWeatherByCity(city);
  }
}
