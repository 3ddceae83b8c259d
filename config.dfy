/** `loadConfig` of src/config.ts: validates the process environment and
    builds the bot's configuration. The environment is a map from variable
    name to value; a name missing from the map is an unset variable. */
module Config {
  import opened Wrappers
  import opened Text

  type Env = map<string, string>

  const DISCORD_TOKEN := "DISCORD_TOKEN"
  const CHANNEL_ID := "CHANNEL_ID"
  const MC_SERVER_ADDRESS := "MC_SERVER_ADDRESS"
  const UPDATE_INTERVAL := "UPDATE_INTERVAL"
  const RECENT_PLAYER_DAYS := "RECENT_PLAYER_DAYS"

  /** The required variables, in the order they are checked. */
  const REQUIRED_KEYS := [DISCORD_TOKEN, CHANNEL_ID, MC_SERVER_ADDRESS]

  const DEFAULT_UPDATE_INTERVAL := 5
  const DEFAULT_RECENT_PLAYER_DAYS := 7

  /** A numeric setting: a decimal value, or a text whose `parseInt` result
      (a number read from a prefix, or NaN) this model does not compute. */
  datatype Setting = Number(n: nat) | Unparsed(text: string)

  datatype Config = Config(
    discordToken: string,
    channelId: string,
    mcServerAddress: string,
    updateInterval: Setting,
    recentPlayerDays: Setting)

  /** A variable is given when it is set to a non-empty string (an empty
      string is falsy in the source's checks). */
  predicate Given(env: Env, key: string) {
    key in env && env[key] != ""
  }

  function RequiredMessage(key: string): string {
    key + " is required in .env file"
  }

  /** `parseInt(text, 10)` on a given value, or the default. */
  function ParseSetting(env: Env, key: string, default: nat): (s: Setting)
    ensures !Given(env, key) ==> s == Number(default)
    ensures Given(env, key) && IsDigits(env[key]) ==> s == Number(DigitsValue(env[key]))
    ensures Given(env, key) && !IsDigits(env[key]) ==> s == Unparsed(env[key])
  {
    if !Given(env, key) then Number(default)
    else match ParseDecimal(env[key])
      case Some(n) => Number(n)
      case None => Unparsed(env[key])
  }

  /** `loadConfig()`: fails naming the first required variable that is not
      given; otherwise returns the required values unchanged and the two
      numeric settings, defaulting to 5 minutes and 7 days. */
  function LoadConfig(env: Env): (r: Result<Config, string>)
    ensures r.Failure? <==> exists i :: 0 <= i < |REQUIRED_KEYS| && !Given(env, REQUIRED_KEYS[i])
    ensures r.Failure? ==> exists i :: 0 <= i < |REQUIRED_KEYS|
                              && !Given(env, REQUIRED_KEYS[i])
                              && (forall j :: 0 <= j < i ==> Given(env, REQUIRED_KEYS[j]))
                              && r.error == RequiredMessage(REQUIRED_KEYS[i])
    ensures r.Success? ==> && Given(env, DISCORD_TOKEN) && Given(env, CHANNEL_ID) && Given(env, MC_SERVER_ADDRESS)
                           && r.value.discordToken == env[DISCORD_TOKEN]
                           && r.value.channelId == env[CHANNEL_ID]
                           && r.value.mcServerAddress == env[MC_SERVER_ADDRESS]
    ensures r.Success? ==> && r.value.updateInterval == ParseSetting(env, UPDATE_INTERVAL, DEFAULT_UPDATE_INTERVAL)
                           && r.value.recentPlayerDays == ParseSetting(env, RECENT_PLAYER_DAYS, DEFAULT_RECENT_PLAYER_DAYS)
    ensures r.Success? && !Given(env, UPDATE_INTERVAL) ==> r.value.updateInterval == Number(5)
    ensures r.Success? && !Given(env, RECENT_PLAYER_DAYS) ==> r.value.recentPlayerDays == Number(7)
  {
    if !Given(env, DISCORD_TOKEN) then
      assert !Given(env, REQUIRED_KEYS[0]);
      Failure(RequiredMessage(DISCORD_TOKEN))
    else if !Given(env, CHANNEL_ID) then
      assert !Given(env, REQUIRED_KEYS[1]);
      Failure(RequiredMessage(CHANNEL_ID))
    else if !Given(env, MC_SERVER_ADDRESS) then
      assert !Given(env, REQUIRED_KEYS[2]);
      Failure(RequiredMessage(MC_SERVER_ADDRESS))
    else
      Success(Config(
        env[DISCORD_TOKEN],
        env[CHANNEL_ID],
        env[MC_SERVER_ADDRESS],
        ParseSetting(env, UPDATE_INTERVAL, DEFAULT_UPDATE_INTERVAL),
        ParseSetting(env, RECENT_PLAYER_DAYS, DEFAULT_RECENT_PLAYER_DAYS)))
  }

  /** A numeric setting written in decimal reads back as its value. */
  lemma SettingRoundTrip(env: Env, key: string, n: nat, default: nat)
    requires key in env && env[key] == NatToString(n)
    ensures ParseSetting(env, key, default) == Number(n)
  {
    ParseNatToString(n);
  }

  /** With the three required variables given, loading succeeds and reads
      decimal intervals back as written. */
  lemma LoadConfigRoundTrip(token: string, channel: string, address: string, interval: nat, days: nat)
    requires token != "" && channel != "" && address != ""
    ensures var env := map[DISCORD_TOKEN := token, CHANNEL_ID := channel, MC_SERVER_ADDRESS := address,
                          UPDATE_INTERVAL := NatToString(interval), RECENT_PLAYER_DAYS := NatToString(days)];
            LoadConfig(env) == Success(Config(token, channel, address, Number(interval), Number(days)))
  {
    var env := map[DISCORD_TOKEN := token, CHANNEL_ID := channel, MC_SERVER_ADDRESS := address,
                   UPDATE_INTERVAL := NatToString(interval), RECENT_PLAYER_DAYS := NatToString(days)];
    SettingRoundTrip(env, UPDATE_INTERVAL, interval, DEFAULT_UPDATE_INTERVAL);
    SettingRoundTrip(env, RECENT_PLAYER_DAYS, days, DEFAULT_RECENT_PLAYER_DAYS);
  }
}
