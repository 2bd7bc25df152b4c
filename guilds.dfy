/**
 * `src/controllers/guild.controller.ts`: the selected-channel listing, the status code
 * the bot-connection callback redirects with, and soft or hard disconnection, over the
 * guild collection keyed by guild id.
 *
 * The Discord calls of the callback (exchanging the code, reading the user behind the
 * access token) are function parameters returning `None` where the source throws.
 */
module Guilds {
  import opened Wrappers
  import ChannelSort
  import Users

  /** A channel the guild owner chose to analyse. */
  datatype SelectedChannel = SelectedChannel(channelId: string, channelName: string)

  /** A connected (or disconnected) guild; `user` is the owner's Discord id. */
  datatype Guild = Guild(guildId: string, user: string, name: string, isDisconnected: bool,
                         selectedChannels: Option<seq<SelectedChannel>>)

  /** The guild part of the bot authorisation returned for a code. */
  datatype DiscordGuild = DiscordGuild(id: string, name: string)
  datatype OAuthGrant = OAuthGrant(accessToken: string, guild: DiscordGuild)

  datatype ApiError = ApiError(code: nat, message: string)

  const NotConnectedError := ApiError(440, "Oops, something went wrong! Could you please try logging in")
  const Connected: nat := 701
  const Reconnected: nat := 702
  const ConnectFailed: nat := 491
  const NoContent: nat := 204

  /** The query the callback redirects the browser with. */
  datatype Redirect = Redirect(statusCode: nat, guildId: Option<string>, guildName: Option<string>)

  // ---------------------------------------------------------------------------
  // getSelectedChannels

  /** `selectedChannels.some(selected => selected.channelId === channel.id)`. */
  predicate IsSelected(c: ChannelSort.Channel, selected: seq<SelectedChannel>) {
    exists s :: s in selected && s.channelId == c.id
  }

  /** `subChannels.filter(...)`: the selected channels, in their order. */
  function SelectedOf(channels: seq<ChannelSort.Channel>, selected: seq<SelectedChannel>): (r: seq<ChannelSort.Channel>)
    ensures |r| <= |channels|
    ensures forall c :: c in r <==> c in channels && IsSelected(c, selected)
  {
    if channels == [] then []
    else (if IsSelected(channels[0], selected) then [channels[0]] else []) + SelectedOf(channels[1..], selected)
  }

  /** `filter` keeps the input order and every occurrence: selecting from `p + q` selects from `p`, then `q`. */
  lemma {:induction false} SelectedOfAppend(p: seq<ChannelSort.Channel>, q: seq<ChannelSort.Channel>,
                                            selected: seq<SelectedChannel>)
    ensures SelectedOf(p + q, selected) == SelectedOf(p, selected) + SelectedOf(q, selected)
    decreases |p|
  {
    if p == [] {
      assert p + q == q;
    } else {
      SelectedOfAppend(p[1..], q, selected);
      assert (p + q)[1..] == p[1..] + q;
      assert (p + q)[0] == p[0];
    }
  }

  /** A single channel is kept exactly when it is selected. */
  lemma SelectedOfSingle(c: ChannelSort.Channel, selected: seq<SelectedChannel>)
    ensures SelectedOf([c], selected) == if IsSelected(c, selected) then [c] else []
  {
    assert [c][1..] == [];
  }

  /** The category trimmed to its selected channels, keeping id and title. */
  function Trimmed(cat: ChannelSort.Category, selected: seq<SelectedChannel>): (r: ChannelSort.Category)
    ensures r.id == cat.id && r.title == cat.title
    ensures forall c :: c in r.subChannels <==> c in cat.subChannels && IsSelected(c, selected)
  {
    ChannelSort.Category(cat.id, cat.title, SelectedOf(cat.subChannels, selected))
  }

  /** The `filter` then `map` over the sorted categories. */
  function SelectCategories(categories: seq<ChannelSort.Category>, selected: seq<SelectedChannel>): (r: seq<ChannelSort.Category>)
    ensures |r| <= |categories|
    ensures forall k :: 0 <= k < |r| ==> r[k].subChannels != []
  {
    if categories == [] then []
    else
      var head := categories[0];
      (if SelectedOf(head.subChannels, selected) != [] then [Trimmed(head, selected)] else [])
      + SelectCategories(categories[1..], selected)
  }

  /**
   * The result holds exactly the categories with at least one selected channel, each
   * trimmed to its selected channels with its id and title kept.
   */
  lemma {:induction false} SelectCategoriesMembers(categories: seq<ChannelSort.Category>, selected: seq<SelectedChannel>)
    ensures forall cat :: cat in SelectCategories(categories, selected) <==>
      exists c :: c in categories && SelectedOf(c.subChannels, selected) != [] && cat == Trimmed(c, selected)
  {
    if categories != [] {
      SelectCategoriesMembers(categories[1..], selected);
      assert forall c :: c in categories <==> c == categories[0] || c in categories[1..];
    }
  }

  /** Selecting respects order: the result for `p + q` is the result for `p` followed by that for `q`. */
  lemma {:induction false} SelectCategoriesAppend(p: seq<ChannelSort.Category>, q: seq<ChannelSort.Category>,
                                                  selected: seq<SelectedChannel>)
    ensures SelectCategories(p + q, selected) == SelectCategories(p, selected) + SelectCategories(q, selected)
  {
    if p == [] {
      assert p + q == q;
    } else {
      var head := if SelectedOf(p[0].subChannels, selected) != [] then [Trimmed(p[0], selected)] else [];
      assert (p + q)[0] == p[0];
      assert (p + q)[1..] == p[1..] + q;
      calc {
        SelectCategories(p + q, selected);
        head + SelectCategories(p[1..] + q, selected);
        { SelectCategoriesAppend(p[1..], q, selected); }
        head + (SelectCategories(p[1..], selected) + SelectCategories(q, selected));
        SelectCategories(p, selected) + SelectCategories(q, selected);
      }
    }
  }

  /** Every kept channel really sits in its category and is selected; nothing selected is lost. */
  lemma SelectedChannelsExact(categories: seq<ChannelSort.Category>, selected: seq<SelectedChannel>,
                              cat: ChannelSort.Category, c: ChannelSort.Channel)
    requires cat in categories
    requires c in cat.subChannels && IsSelected(c, selected)
    ensures Trimmed(cat, selected) in SelectCategories(categories, selected)
    ensures c in Trimmed(cat, selected).subChannels
  {
    SelectCategoriesMembers(categories, selected);
  }

  // ---------------------------------------------------------------------------
  // the collection

  /** Every guild is stored under its own id. */
  predicate KeyedById(guilds: map<string, Guild>) {
    forall id :: id in guilds ==> guilds[id].guildId == id
  }

  /** No user owns two connected guilds. */
  predicate OneConnectedPerUser(guilds: map<string, Guild>) {
    forall a, b ::
      (a in guilds && b in guilds && !guilds[a].isDisconnected && !guilds[b].isDisconnected
       && guilds[a].user == guilds[b].user) ==> a == b
  }

  /** `getGuild({user, guildId: {$ne: guildId}, isDisconnected: false})` finds one. */
  predicate OwnsOtherConnected(guilds: map<string, Guild>, user: string, guildId: string) {
    exists id :: id in guilds && id != guildId && guilds[id].user == user && !guilds[id].isDisconnected
  }

  /** `getGuild({guildId, user})` finds one. */
  predicate Owns(guilds: map<string, Guild>, guildId: string, user: string) {
    guildId in guilds && guilds[guildId].user == user
  }

  /**
   * `connectGuildCallback` as a value: the redirect and the new collection. `exchange`
   * stands for exchanging the code, `whoAmI` for reading the Discord user id behind an
   * access token; either is `None` where the call throws.
   */
  function ConnectOutcome(guilds: map<string, Guild>, users: map<string, Users.User>, code: string,
                          exchange: string -> Option<OAuthGrant>, whoAmI: string -> Option<string>)
    : (r: (Redirect, map<string, Guild>))
    ensures r.0.statusCode == ConnectFailed || r.0.statusCode == Connected || r.0.statusCode == Reconnected
    ensures r.0.statusCode == ConnectFailed ==> r.1 == guilds && r.0 == Redirect(ConnectFailed, None, None)
    ensures r.0.statusCode == ConnectFailed <==>
      (code == "" || exchange(code).None? || whoAmI(exchange(code).value.accessToken).None?
       || whoAmI(exchange(code).value.accessToken).value !in users
       || OwnsOtherConnected(guilds, whoAmI(exchange(code).value.accessToken).value, exchange(code).value.guild.id))
    ensures r.0.statusCode != ConnectFailed ==>
      var grant := exchange(code).value;
      && (r.0.statusCode == Reconnected <==> grant.guild.id in guilds)
      && r.1.Keys == guilds.Keys + {grant.guild.id}
      && (forall id :: id in guilds && id != grant.guild.id ==> r.1[id] == guilds[id])
  {
    if code == "" then (Redirect(ConnectFailed, None, None), guilds)
    else match exchange(code)
      case None => (Redirect(ConnectFailed, None, None), guilds)
      case Some(grant) =>
        match whoAmI(grant.accessToken)
        case None => (Redirect(ConnectFailed, None, None), guilds)
        case Some(discordId) =>
          if discordId !in users || OwnsOtherConnected(guilds, discordId, grant.guild.id) then
            (Redirect(ConnectFailed, None, None), guilds)
          else if grant.guild.id in guilds then
            var g := guilds[grant.guild.id];
            var guilds' := if g.user == discordId then guilds[grant.guild.id := g.(isDisconnected := false)] else guilds;
            (Redirect(Reconnected, Some(g.guildId), Some(g.name)), guilds')
          else
            var g := Guild(grant.guild.id, discordId, grant.guild.name, false, None);
            (Redirect(Connected, Some(g.guildId), Some(g.name)), guilds[grant.guild.id := g])
  }

  /**
   * A successful connection leaves the guild connected and owned by the caller, except
   * for an existing guild of another owner, which is left as it was.
   */
  lemma ConnectOwnership(guilds: map<string, Guild>, users: map<string, Users.User>, code: string,
                         exchange: string -> Option<OAuthGrant>, whoAmI: string -> Option<string>)
    requires KeyedById(guilds)
    ensures var r := ConnectOutcome(guilds, users, code, exchange, whoAmI);
      r.0.statusCode != ConnectFailed ==>
        var grant := exchange(code).value;
        var user := whoAmI(grant.accessToken).value;
        && KeyedById(r.1)
        && r.0.guildId == Some(grant.guild.id)
        && (r.0.statusCode == Connected ==> r.1[grant.guild.id] == Guild(grant.guild.id, user, grant.guild.name, false, None))
        && (r.0.statusCode == Reconnected && guilds[grant.guild.id].user == user ==>
              r.1[grant.guild.id] == guilds[grant.guild.id].(isDisconnected := false))
        && (r.0.statusCode == Reconnected && guilds[grant.guild.id].user != user ==> r.1 == guilds)
  {
  }

  /** Connecting never gives a user a second connected guild. */
  lemma ConnectKeepsOneConnectedPerUser(guilds: map<string, Guild>, users: map<string, Users.User>, code: string,
                                        exchange: string -> Option<OAuthGrant>, whoAmI: string -> Option<string>)
    requires OneConnectedPerUser(guilds)
    ensures OneConnectedPerUser(ConnectOutcome(guilds, users, code, exchange, whoAmI).1)
  {
    var r := ConnectOutcome(guilds, users, code, exchange, whoAmI);
    if r.0.statusCode != ConnectFailed {
      var grant := exchange(code).value;
      var user := whoAmI(grant.accessToken).value;
      assert !OwnsOtherConnected(guilds, user, grant.guild.id);
      assert forall b :: b in guilds && b != grant.guild.id && guilds[b].user == user ==> guilds[b].isDisconnected;
      assert forall id :: id in r.1 && id != grant.guild.id ==> r.1[id] == guilds[id];
      assert grant.guild.id in r.1;
      assert r.1[grant.guild.id].user == user || (grant.guild.id in guilds && r.1[grant.guild.id] == guilds[grant.guild.id]);
    }
  }

  /** `disconnectGuild` as a value: soft marks the caller's guild disconnected, hard deletes it. */
  function DisconnectOutcome(guilds: map<string, Guild>, guildId: string, user: string, disconnectType: string)
    : (r: map<string, Guild>)
    ensures !Owns(guilds, guildId, user) || (disconnectType != "soft" && disconnectType != "hard") ==> r == guilds
    ensures Owns(guilds, guildId, user) && disconnectType == "soft" ==>
      r == guilds[guildId := guilds[guildId].(isDisconnected := true)]
    ensures Owns(guilds, guildId, user) && disconnectType == "hard" ==>
      guildId !in r && r.Keys == guilds.Keys - {guildId}
    ensures forall id :: id in r ==> id in guilds && (id != guildId ==> r[id] == guilds[id])
  {
    if disconnectType == "soft" && Owns(guilds, guildId, user) then
      guilds[guildId := guilds[guildId].(isDisconnected := true)]
    else if disconnectType == "hard" && Owns(guilds, guildId, user) then
      guilds - {guildId}
    else guilds
  }

  /** Disconnecting keeps the collection's invariants. */
  lemma DisconnectKeepsInvariants(guilds: map<string, Guild>, guildId: string, user: string, disconnectType: string)
    requires KeyedById(guilds) && OneConnectedPerUser(guilds)
    ensures KeyedById(DisconnectOutcome(guilds, guildId, user, disconnectType))
    ensures OneConnectedPerUser(DisconnectOutcome(guilds, guildId, user, disconnectType))
  {
    var r := DisconnectOutcome(guilds, guildId, user, disconnectType);
    forall a, b | a in r && b in r && !r[a].isDisconnected && !r[b].isDisconnected && r[a].user == r[b].user
      ensures a == b
    {
      assert r[a] == guilds[a] && r[b] == guilds[b];
    }
  }

  /** The guild collection, updated in place by the controller's service calls. */
  class GuildTable {
    var guilds: map<string, Guild>

    ghost predicate Valid()
      reads this
    {
      KeyedById(guilds) && OneConnectedPerUser(guilds)
    }

    constructor ()
      ensures guilds == map[] && Valid()
    {
      guilds := map[];
    }

    /**
     * `getSelectedChannels`: error 440 unless the caller owns the guild; `[]` without a
     * selection; otherwise the sorted categories of `channels` trimmed to the selection.
     */
    method GetSelectedChannels(guildId: string, user: string, channels: seq<ChannelSort.Channel>)
      returns (r: Result<seq<ChannelSort.Category>, ApiError>)
      ensures r == Failure(NotConnectedError) <==> !Owns(guilds, guildId, user)
      ensures Owns(guilds, guildId, user) ==>
        var selection := guilds[guildId].selectedChannels;
        if selection.None? || selection.value == [] then r == Success([])
        else r == Success(SelectCategories(ChannelSort.SortedChannels(channels), selection.value))
    {
      if !(guildId in guilds && guilds[guildId].user == user) {
        return Failure(NotConnectedError);
      }
      var guild := guilds[guildId];
      if guild.selectedChannels.Some? && |guild.selectedChannels.value| > 0 {
        var sorted := ChannelSort.SortChannels(channels);
        return Success(SelectCategories(sorted, guild.selectedChannels.value));
      }
      return Success([]);
    }

    /** `connectGuildCallback`: the redirect, with the guild reconnected or created on success. */
    method ConnectGuildCallback(users: map<string, Users.User>, code: string,
                                exchange: string -> Option<OAuthGrant>, whoAmI: string -> Option<string>)
      returns (redirect: Redirect)
      requires Valid()
      modifies this
      ensures Valid()
      ensures (redirect, guilds) == ConnectOutcome(old(guilds), users, code, exchange, whoAmI)
    {
      ConnectOwnership(guilds, users, code, exchange, whoAmI);
      ConnectKeepsOneConnectedPerUser(guilds, users, code, exchange, whoAmI);
      var statusCode := Connected;
      if code == "" {
        return Redirect(ConnectFailed, None, None);
      }
      var grant := exchange(code);
      if grant.None? {
        return Redirect(ConnectFailed, None, None);
      }
      var discordId := whoAmI(grant.value.accessToken);
      if discordId.None? || discordId.value !in users {
        return Redirect(ConnectFailed, None, None);
      }
      if OwnsOtherConnected(guilds, discordId.value, grant.value.guild.id) {
        return Redirect(ConnectFailed, None, None);
      }
      var guild: Guild;
      if grant.value.guild.id in guilds {
        statusCode := Reconnected;
        guild := guilds[grant.value.guild.id];
        if guild.user == discordId.value {
          guilds := guilds[guild.guildId := guild.(isDisconnected := false)];
        }
      } else {
        statusCode := Connected;
        guild := Guild(grant.value.guild.id, discordId.value, grant.value.guild.name, false, None);
        guilds := guilds[guild.guildId := guild];
      }
      return Redirect(statusCode, Some(guild.guildId), Some(guild.name));
    }

    /** `disconnectGuild`: always 204; the guild is changed only for `soft` or `hard`. */
    method DisconnectGuild(guildId: string, user: string, disconnectType: string) returns (status: nat)
      requires Valid()
      modifies this
      ensures Valid()
      ensures status == NoContent
      ensures guilds == DisconnectOutcome(old(guilds), guildId, user, disconnectType)
    {
      DisconnectKeepsInvariants(guilds, guildId, user, disconnectType);
      if disconnectType == "soft" {
        if guildId in guilds && guilds[guildId].user == user {
          guilds := guilds[guildId := guilds[guildId].(isDisconnected := true)];
        }
      } else if disconnectType == "hard" {
        if guildId in guilds && guilds[guildId].user == user {
          guilds := guilds - {guildId};
        }
      }
      return NoContent;
    }
  }
}
