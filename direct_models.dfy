/** The models of direct/models.py that override the codec: their fields, the exclusions
    `serialize` applies, and the `deserialize`/`serialize` variants of `Region`, `Campaign`,
    `TextCampaign`, `AdGroup`, `Keyword`, `TextAd` and `DirectStats`. */
module DirectModels {
  import opened Wrappers
  import opened Strings
  import opened Dates
  import opened DirectCodec

  // ---------------------------------------------------------------- schemas

  /** `Region`: the Direct geo dictionary. */
  const RegionModel: Model := Model(
    [Field("id", IntKind), Field("geo_region_name", TextKind), Field("parent_id", IntKind),
     Field("geo_region_type", TextKind)],
    "id", "id", false, {}, {})

  /** `Campaign`, the model of campaigns of types other than text campaigns. */
  const CampaignModel: Model := Model(
    [Field("id", IntKind), Field("name", TextKind), Field("status", TextKind), Field("state", TextKind),
     Field("account_id", OtherKind), Field("type", TextKind), Field("start_date", OtherKind),
     Field("daily_budget_amount", IntKind), Field("daily_budget_mode", TextKind)],
    "id", "id", false, {}, {})

  /** `TextCampaign`, a multi-table child of `Campaign` (whose fields come first). The account
      is a relation to a text key, the start date a date field. Update payloads exclude what
      add payloads exclude (see `TextCampaignAsWritten`). */
  const TextCampaignModel: Model := Model(
    [Field("id", IntKind), Field("name", TextKind), Field("status", TextKind), Field("state", TextKind),
     Field("account_id", OtherKind), Field("type", TextKind), Field("start_date", OtherKind),
     Field("daily_budget_amount", IntKind), Field("daily_budget_mode", TextKind),
     Field("campaign_ptr_id", IntKind)],
    "campaign_ptr", "campaign_ptr_id", true,
    {"account_id", "campaign_ptr_id"}, {"account_id", "campaign_ptr_id"})

  /** `TextCampaign` as declared: it overrides `exclude_serialize_fields` but inherits the
      mixin's `exclude_serialize_update_fields`, which was computed once from the mixin's own
      empty set, so updates exclude nothing. */
  const TextCampaignAsWritten: Model := TextCampaignModel.(excludeUpdate := {})

  /** `AdGroup`; `regions` is its forward many-to-many field. */
  const AdGroupModel: Model := Model(
    [Field("id", IntKind), Field("campaign_id", IntKind), Field("name", TextKind), Field("state", TextKind),
     Field("status", TextKind), Field("serving_status", TextKind), Field("regions", OtherKind)],
    "id", "id", false,
    {"status", "state", "serving_status", "regions"}, {"status", "state", "serving_status", "regions", "campaign_id"})

  /** `Keyword`, a multi-table child of `Criterion` (`id`, `ad_group`). Bids are kopecks. */
  const KeywordModel: Model := Model(
    [Field("id", IntKind), Field("ad_group_id", IntKind), Field("criterion_ptr_id", IntKind),
     Field("text", TextKind), Field("bid", IntKind), Field("context_bid", IntKind),
     Field("strategy_priority", TextKind), Field("user_param1", TextKind), Field("user_param2", TextKind),
     Field("state", TextKind), Field("status", TextKind), Field("serving_status", TextKind)],
    "criterion_ptr", "criterion_ptr_id", true,
    {"criterion_ptr_id"}, {"criterion_ptr_id", "ad_group_id"})

  /** `TextAd`. */
  const TextAdModel: Model := Model(
    [Field("id", IntKind), Field("ad_group_id", IntKind), Field("state", TextKind), Field("status", TextKind),
     Field("status_clarification", TextKind), Field("title", TextKind), Field("title2", TextKind),
     Field("text", TextKind), Field("href", TextKind), Field("mobile", TextKind),
     Field("display_domain", TextKind), Field("display_url_path", TextKind), Field("v_card_id", IntKind),
     Field("ad_image_hash", TextKind)],
    "id", "id", false,
    {"state", "status", "status_clarification"}, {"state", "status", "status_clarification", "ad_group_id", "mobile"})

  /** `DirectStats`: one report row. The join fields to campaign, group, ad and criterion are
      relations to integer keys, so `int()` is applied to their values as to the counters. */
  const DirectStatsModel: Model := Model(
    [Field("id", IntKind), Field("date", OtherKind), Field("shows", IntKind), Field("clicks", IntKind),
     Field("region_id", IntKind), Field("device", TextKind), Field("campaign_id", IntKind),
     Field("group_id", IntKind), Field("ad_id", IntKind), Field("criterion_id", IntKind),
     Field("keyword", TextKind), Field("gender", TextKind), Field("age", TextKind),
     Field("carrier_type", TextKind), Field("mobile_platform", TextKind), Field("slot", TextKind)],
    "id", "id", false, {}, {})

  /** Names of the API keys that a model's own `deserialize`/`serialize` handles and that are
      not attributes of the model (under-scored). */
  const CampaignApiOnly: set<string> :=
    {"blocked_ips", "excluded_sites", "negative_keywords", "daily_budget"}
  const TextCampaignApiOnly: set<string> :=
    {"blocked_ips", "excluded_sites", "negative_keywords", "daily_budget", "text_campaign"}
  const AdGroupApiOnly: set<string> := {"region_ids", "negative_keywords"}
  const KeywordApiOnly: set<string> := {"keyword"}
  const TextAdApiOnly: set<string> := {"text_ad"}

  // ---------------------------------------------------------------- API keys

  /** The API keys the models read and write by name. Each is the camelized form of its
      under-scored name (`ContextBid` is `camelize("context_bid")`), which is how the API's
      keys and the models' attributes correspond. */
  const TextKey: string := Camelize("text")
  const BidKey: string := Camelize("bid")
  const ContextBidKey: string := Camelize("context_bid")
  const KeywordKey: string := Camelize("keyword")
  const TextAdKey: string := Camelize("text_ad")
  const AdGroupIdKey: string := Camelize("ad_group_id")
  const IdKey: string := Camelize("id")
  const BlockedIpsKey: string := Camelize("blocked_ips")
  const ExcludedSitesKey: string := Camelize("excluded_sites")
  const NegativeKeywordsKey: string := Camelize("negative_keywords")
  const DailyBudgetKey: string := Camelize("daily_budget")
  const AmountKey: string := Camelize("amount")
  const ModeKey: string := Camelize("mode")
  const StartDateKey: string := Camelize("start_date")
  const TextCampaignKey: string := Camelize("text_campaign")
  const BiddingStrategyKey: string := Camelize("bidding_strategy")
  const SearchKey: string := Camelize("search")
  const NetworkKey: string := Camelize("network")
  const BiddingStrategyTypeKey: string := Camelize("bidding_strategy_type")
  const RegionIdsKey: string := Camelize("region_ids")
  const ItemsKey: string := Camelize("items")
  const TargetingLocationIdKey: string := Camelize("targeting_location_id")
  const DeviceKey: string := Camelize("device")
  const GroupIdKey: string := Camelize("group_id")
  const DateKey: string := Camelize("date")
  const ImpressionsKey: string := Camelize("impressions")
  const ShowsKey: string := Camelize("shows")
  const AccountIdKey: string := Camelize("account_id")
  const CampaignPtrIdKey: string := Camelize("campaign_ptr_id")

  // ---------------------------------------------------------------- snake names

  /** Each name the models use, attribute or API key, is a snake name. */
  lemma TextSnake()
    ensures SnakeName("text")
  {
  }

  lemma BidSnake()
    ensures SnakeName("bid")
  {
  }

  lemma ContextBidSnake()
    ensures SnakeName("context_bid")
  {
    assert SnakeFrom("context_bid", 9, true);
    assert SnakeFrom("context_bid", 6, false);
    assert SnakeFrom("context_bid", 3, false);
  }

  lemma KeywordSnake()
    ensures SnakeName("keyword")
  {
    assert SnakeFrom("keyword", 4, false);
  }

  lemma TextAdSnake()
    ensures SnakeName("text_ad")
  {
    assert SnakeFrom("text_ad", 4, false);
  }

  lemma AdGroupIdSnake()
    ensures SnakeName("ad_group_id")
  {
    assert SnakeFrom("ad_group_id", 8, false);
    assert SnakeFrom("ad_group_id", 5, false);
    assert SnakeFrom("ad_group_id", 2, false);
  }

  lemma IdSnake()
    ensures SnakeName("id")
  {
  }

  lemma BlockedIpsSnake()
    ensures SnakeName("blocked_ips")
  {
    assert SnakeFrom("blocked_ips", 9, true);
    assert SnakeFrom("blocked_ips", 6, false);
    assert SnakeFrom("blocked_ips", 3, false);
  }

  lemma ExcludedSitesSnake()
    ensures SnakeName("excluded_sites")
  {
    assert SnakeFrom("excluded_sites", 11, false);
    assert SnakeFrom("excluded_sites", 8, false);
    assert SnakeFrom("excluded_sites", 5, false);
    assert SnakeFrom("excluded_sites", 2, false);
  }

  lemma NegativeKeywordsSnake()
    ensures SnakeName("negative_keywords")
  {
    assert SnakeFrom("negative_keywords", 14, false);
    assert SnakeFrom("negative_keywords", 11, false);
    assert SnakeFrom("negative_keywords", 8, false);
    assert SnakeFrom("negative_keywords", 5, false);
    assert SnakeFrom("negative_keywords", 2, false);
  }

  lemma DailyBudgetSnake()
    ensures SnakeName("daily_budget")
  {
    assert SnakeFrom("daily_budget", 9, false);
    assert SnakeFrom("daily_budget", 7, true);
    assert SnakeFrom("daily_budget", 4, false);
  }

  lemma AmountSnake()
    ensures SnakeName("amount")
  {
    assert SnakeFrom("amount", 3, false);
  }

  lemma ModeSnake()
    ensures SnakeName("mode")
  {
  }

  lemma StartDateSnake()
    ensures SnakeName("start_date")
  {
    assert SnakeFrom("start_date", 7, true);
    assert SnakeFrom("start_date", 4, false);
  }

  lemma TextCampaignSnake()
    ensures SnakeName("text_campaign")
  {
    assert SnakeFrom("text_campaign", 10, false);
    assert SnakeFrom("text_campaign", 7, false);
    assert SnakeFrom("text_campaign", 4, false);
  }

  lemma BiddingStrategySnake()
    ensures SnakeName("bidding_strategy")
  {
    assert SnakeFrom("bidding_strategy", 13, false);
    assert SnakeFrom("bidding_strategy", 10, false);
    assert SnakeFrom("bidding_strategy", 7, false);
    assert SnakeFrom("bidding_strategy", 4, false);
  }

  lemma SearchSnake()
    ensures SnakeName("search")
  {
    assert SnakeFrom("search", 3, false);
  }

  lemma NetworkSnake()
    ensures SnakeName("network")
  {
    assert SnakeFrom("network", 4, false);
  }

  lemma BiddingStrategyTypeSnake()
    ensures SnakeName("bidding_strategy_type")
  {
    assert SnakeFrom("bidding_strategy_type", 18, true);
    assert SnakeFrom("bidding_strategy_type", 15, false);
    assert SnakeFrom("bidding_strategy_type", 12, false);
    assert SnakeFrom("bidding_strategy_type", 9, true);
    assert SnakeFrom("bidding_strategy_type", 6, false);
    assert SnakeFrom("bidding_strategy_type", 3, false);
  }

  lemma RegionIdsSnake()
    ensures SnakeName("region_ids")
  {
    assert SnakeFrom("region_ids", 8, true);
    assert SnakeFrom("region_ids", 5, false);
    assert SnakeFrom("region_ids", 2, false);
  }

  lemma ItemsSnake()
    ensures SnakeName("items")
  {
    assert SnakeFrom("items", 2, false);
  }

  lemma TargetingLocationIdSnake()
    ensures SnakeName("targeting_location_id")
  {
    assert SnakeFrom("targeting_location_id", 18, false);
    assert SnakeFrom("targeting_location_id", 15, false);
    assert SnakeFrom("targeting_location_id", 12, false);
    assert SnakeFrom("targeting_location_id", 9, false);
    assert SnakeFrom("targeting_location_id", 6, false);
    assert SnakeFrom("targeting_location_id", 3, false);
  }

  lemma DeviceSnake()
    ensures SnakeName("device")
  {
    assert SnakeFrom("device", 3, false);
  }

  lemma GroupIdSnake()
    ensures SnakeName("group_id")
  {
    assert SnakeFrom("group_id", 5, false);
    assert SnakeFrom("group_id", 2, false);
  }

  lemma DateSnake()
    ensures SnakeName("date")
  {
  }

  lemma ImpressionsSnake()
    ensures SnakeName("impressions")
  {
    assert SnakeFrom("impressions", 8, false);
    assert SnakeFrom("impressions", 5, false);
    assert SnakeFrom("impressions", 2, false);
  }

  lemma ShowsSnake()
    ensures SnakeName("shows")
  {
    assert SnakeFrom("shows", 2, false);
  }

  lemma AccountIdSnake()
    ensures SnakeName("account_id")
  {
    assert SnakeFrom("account_id", 7, false);
    assert SnakeFrom("account_id", 4, false);
  }

  lemma CampaignPtrIdSnake()
    ensures SnakeName("campaign_ptr_id")
  {
    assert SnakeFrom("campaign_ptr_id", 12, false);
    assert SnakeFrom("campaign_ptr_id", 10, true);
    assert SnakeFrom("campaign_ptr_id", 7, false);
    assert SnakeFrom("campaign_ptr_id", 4, false);
  }

  lemma GeoRegionNameSnake()
    ensures SnakeName("geo_region_name")
  {
    assert SnakeFrom("geo_region_name", 12, true);
    assert SnakeFrom("geo_region_name", 9, false);
    assert SnakeFrom("geo_region_name", 6, false);
    assert SnakeFrom("geo_region_name", 3, false);
  }

  lemma ParentIdSnake()
    ensures SnakeName("parent_id")
  {
    assert SnakeFrom("parent_id", 6, false);
    assert SnakeFrom("parent_id", 3, false);
  }

  lemma GeoRegionTypeSnake()
    ensures SnakeName("geo_region_type")
  {
    assert SnakeFrom("geo_region_type", 12, true);
    assert SnakeFrom("geo_region_type", 9, false);
    assert SnakeFrom("geo_region_type", 6, false);
    assert SnakeFrom("geo_region_type", 3, false);
  }

  lemma NameSnake()
    ensures SnakeName("name")
  {
  }

  lemma StatusSnake()
    ensures SnakeName("status")
  {
    assert SnakeFrom("status", 3, false);
  }

  lemma StateSnake()
    ensures SnakeName("state")
  {
    assert SnakeFrom("state", 2, false);
  }

  lemma TypeSnake()
    ensures SnakeName("type")
  {
  }

  lemma DailyBudgetAmountSnake()
    ensures SnakeName("daily_budget_amount")
  {
    assert SnakeFrom("daily_budget_amount", 16, false);
    assert SnakeFrom("daily_budget_amount", 14, true);
    assert SnakeFrom("daily_budget_amount", 11, false);
    assert SnakeFrom("daily_budget_amount", 8, false);
    assert SnakeFrom("daily_budget_amount", 5, false);
    assert SnakeFrom("daily_budget_amount", 2, false);
  }

  lemma DailyBudgetModeSnake()
    ensures SnakeName("daily_budget_mode")
  {
    assert SnakeFrom("daily_budget_mode", 14, true);
    assert SnakeFrom("daily_budget_mode", 11, false);
    assert SnakeFrom("daily_budget_mode", 8, false);
    assert SnakeFrom("daily_budget_mode", 5, false);
    assert SnakeFrom("daily_budget_mode", 2, false);
  }

  lemma CampaignIdSnake()
    ensures SnakeName("campaign_id")
  {
    assert SnakeFrom("campaign_id", 8, false);
    assert SnakeFrom("campaign_id", 5, false);
    assert SnakeFrom("campaign_id", 2, false);
  }

  lemma ServingStatusSnake()
    ensures SnakeName("serving_status")
  {
    assert SnakeFrom("serving_status", 11, false);
    assert SnakeFrom("serving_status", 9, true);
    assert SnakeFrom("serving_status", 6, false);
    assert SnakeFrom("serving_status", 3, false);
  }

  lemma RegionsSnake()
    ensures SnakeName("regions")
  {
    assert SnakeFrom("regions", 4, false);
  }

  lemma CriterionPtrIdSnake()
    ensures SnakeName("criterion_ptr_id")
  {
    assert SnakeFrom("criterion_ptr_id", 13, false);
    assert SnakeFrom("criterion_ptr_id", 11, true);
    assert SnakeFrom("criterion_ptr_id", 8, false);
    assert SnakeFrom("criterion_ptr_id", 5, false);
    assert SnakeFrom("criterion_ptr_id", 2, false);
  }

  lemma StrategyPrioritySnake()
    ensures SnakeName("strategy_priority")
  {
    assert SnakeFrom("strategy_priority", 14, false);
    assert SnakeFrom("strategy_priority", 11, false);
    assert SnakeFrom("strategy_priority", 8, false);
    assert SnakeFrom("strategy_priority", 5, false);
    assert SnakeFrom("strategy_priority", 2, false);
  }

  lemma UserParam1Snake()
    ensures SnakeName("user_param1")
  {
    assert SnakeFrom("user_param1", 8, false);
    assert SnakeFrom("user_param1", 6, true);
    assert SnakeFrom("user_param1", 3, false);
  }

  lemma UserParam2Snake()
    ensures SnakeName("user_param2")
  {
    assert SnakeFrom("user_param2", 8, false);
    assert SnakeFrom("user_param2", 6, true);
    assert SnakeFrom("user_param2", 3, false);
  }

  lemma StatusClarificationSnake()
    ensures SnakeName("status_clarification")
  {
    assert SnakeFrom("status_clarification", 17, false);
    assert SnakeFrom("status_clarification", 14, false);
    assert SnakeFrom("status_clarification", 11, false);
    assert SnakeFrom("status_clarification", 8, true);
    assert SnakeFrom("status_clarification", 5, false);
    assert SnakeFrom("status_clarification", 2, false);
  }

  lemma TitleSnake()
    ensures SnakeName("title")
  {
    assert SnakeFrom("title", 2, false);
  }

  lemma Title2Snake()
    ensures SnakeName("title2")
  {
    assert SnakeFrom("title2", 3, false);
  }

  lemma HrefSnake()
    ensures SnakeName("href")
  {
  }

  lemma MobileSnake()
    ensures SnakeName("mobile")
  {
    assert SnakeFrom("mobile", 3, false);
  }

  lemma DisplayDomainSnake()
    ensures SnakeName("display_domain")
  {
    assert SnakeFrom("display_domain", 11, false);
    assert SnakeFrom("display_domain", 9, true);
    assert SnakeFrom("display_domain", 6, false);
    assert SnakeFrom("display_domain", 3, false);
  }

  lemma DisplayUrlPathSnake()
    ensures SnakeName("display_url_path")
  {
    assert SnakeFrom("display_url_path", 13, true);
    assert SnakeFrom("display_url_path", 10, false);
    assert SnakeFrom("display_url_path", 7, false);
    assert SnakeFrom("display_url_path", 4, false);
  }

  lemma VCardIdSnake()
    ensures SnakeName("v_card_id")
  {
    assert SnakeFrom("v_card_id", 6, false);
    assert SnakeFrom("v_card_id", 3, true);
  }

  lemma AdImageHashSnake()
    ensures SnakeName("ad_image_hash")
  {
    assert SnakeFrom("ad_image_hash", 10, true);
    assert SnakeFrom("ad_image_hash", 7, false);
    assert SnakeFrom("ad_image_hash", 4, true);
  }

  lemma ClicksSnake()
    ensures SnakeName("clicks")
  {
    assert SnakeFrom("clicks", 3, false);
  }

  lemma RegionIdSnake()
    ensures SnakeName("region_id")
  {
    assert SnakeFrom("region_id", 6, false);
    assert SnakeFrom("region_id", 3, false);
  }

  lemma AdIdSnake()
    ensures SnakeName("ad_id")
  {
    assert SnakeFrom("ad_id", 2, false);
  }

  lemma CriterionIdSnake()
    ensures SnakeName("criterion_id")
  {
    assert SnakeFrom("criterion_id", 9, false);
    assert SnakeFrom("criterion_id", 6, false);
    assert SnakeFrom("criterion_id", 3, false);
  }

  lemma GenderSnake()
    ensures SnakeName("gender")
  {
    assert SnakeFrom("gender", 3, false);
  }

  lemma AgeSnake()
    ensures SnakeName("age")
  {
  }

  lemma CarrierTypeSnake()
    ensures SnakeName("carrier_type")
  {
    assert SnakeFrom("carrier_type", 9, true);
    assert SnakeFrom("carrier_type", 6, false);
    assert SnakeFrom("carrier_type", 3, false);
  }

  lemma MobilePlatformSnake()
    ensures SnakeName("mobile_platform")
  {
    assert SnakeFrom("mobile_platform", 12, false);
    assert SnakeFrom("mobile_platform", 9, false);
    assert SnakeFrom("mobile_platform", 6, false);
    assert SnakeFrom("mobile_platform", 3, false);
  }

  lemma SlotSnake()
    ensures SnakeName("slot")
  {
  }

  lemma TextKeyName()
    ensures SnakeName("text") && Underscore(TextKey) == "text"
  {
    TextSnake();
    UnderscoreCamelize("text");
  }

  lemma BidKeyName()
    ensures SnakeName("bid") && Underscore(BidKey) == "bid"
  {
    BidSnake();
    UnderscoreCamelize("bid");
  }

  lemma ContextBidKeyName()
    ensures SnakeName("context_bid") && Underscore(ContextBidKey) == "context_bid"
  {
    ContextBidSnake();
    UnderscoreCamelize("context_bid");
  }

  lemma KeywordKeyName()
    ensures SnakeName("keyword") && Underscore(KeywordKey) == "keyword"
  {
    KeywordSnake();
    UnderscoreCamelize("keyword");
  }

  lemma TextAdKeyName()
    ensures SnakeName("text_ad") && Underscore(TextAdKey) == "text_ad"
  {
    TextAdSnake();
    UnderscoreCamelize("text_ad");
  }

  lemma AdGroupIdKeyName()
    ensures SnakeName("ad_group_id") && Underscore(AdGroupIdKey) == "ad_group_id"
  {
    AdGroupIdSnake();
    UnderscoreCamelize("ad_group_id");
  }

  lemma IdKeyName()
    ensures SnakeName("id") && Underscore(IdKey) == "id"
  {
    IdSnake();
    UnderscoreCamelize("id");
  }

  lemma BlockedIpsKeyName()
    ensures SnakeName("blocked_ips") && Underscore(BlockedIpsKey) == "blocked_ips"
  {
    BlockedIpsSnake();
    UnderscoreCamelize("blocked_ips");
  }

  lemma ExcludedSitesKeyName()
    ensures SnakeName("excluded_sites") && Underscore(ExcludedSitesKey) == "excluded_sites"
  {
    ExcludedSitesSnake();
    UnderscoreCamelize("excluded_sites");
  }

  lemma NegativeKeywordsKeyName()
    ensures SnakeName("negative_keywords") && Underscore(NegativeKeywordsKey) == "negative_keywords"
  {
    NegativeKeywordsSnake();
    UnderscoreCamelize("negative_keywords");
  }

  lemma DailyBudgetKeyName()
    ensures SnakeName("daily_budget") && Underscore(DailyBudgetKey) == "daily_budget"
  {
    DailyBudgetSnake();
    UnderscoreCamelize("daily_budget");
  }

  lemma AmountKeyName()
    ensures SnakeName("amount") && Underscore(AmountKey) == "amount"
  {
    AmountSnake();
    UnderscoreCamelize("amount");
  }

  lemma ModeKeyName()
    ensures SnakeName("mode") && Underscore(ModeKey) == "mode"
  {
    ModeSnake();
    UnderscoreCamelize("mode");
  }

  lemma StartDateKeyName()
    ensures SnakeName("start_date") && Underscore(StartDateKey) == "start_date"
  {
    StartDateSnake();
    UnderscoreCamelize("start_date");
  }

  lemma TextCampaignKeyName()
    ensures SnakeName("text_campaign") && Underscore(TextCampaignKey) == "text_campaign"
  {
    TextCampaignSnake();
    UnderscoreCamelize("text_campaign");
  }

  lemma BiddingStrategyKeyName()
    ensures SnakeName("bidding_strategy") && Underscore(BiddingStrategyKey) == "bidding_strategy"
  {
    BiddingStrategySnake();
    UnderscoreCamelize("bidding_strategy");
  }

  lemma SearchKeyName()
    ensures SnakeName("search") && Underscore(SearchKey) == "search"
  {
    SearchSnake();
    UnderscoreCamelize("search");
  }

  lemma NetworkKeyName()
    ensures SnakeName("network") && Underscore(NetworkKey) == "network"
  {
    NetworkSnake();
    UnderscoreCamelize("network");
  }

  lemma BiddingStrategyTypeKeyName()
    ensures SnakeName("bidding_strategy_type") && Underscore(BiddingStrategyTypeKey) == "bidding_strategy_type"
  {
    BiddingStrategyTypeSnake();
    UnderscoreCamelize("bidding_strategy_type");
  }

  lemma RegionIdsKeyName()
    ensures SnakeName("region_ids") && Underscore(RegionIdsKey) == "region_ids"
  {
    RegionIdsSnake();
    UnderscoreCamelize("region_ids");
  }

  lemma ItemsKeyName()
    ensures SnakeName("items") && Underscore(ItemsKey) == "items"
  {
    ItemsSnake();
    UnderscoreCamelize("items");
  }

  lemma TargetingLocationIdKeyName()
    ensures SnakeName("targeting_location_id") && Underscore(TargetingLocationIdKey) == "targeting_location_id"
  {
    TargetingLocationIdSnake();
    UnderscoreCamelize("targeting_location_id");
  }

  lemma DeviceKeyName()
    ensures SnakeName("device") && Underscore(DeviceKey) == "device"
  {
    DeviceSnake();
    UnderscoreCamelize("device");
  }

  lemma GroupIdKeyName()
    ensures SnakeName("group_id") && Underscore(GroupIdKey) == "group_id"
  {
    GroupIdSnake();
    UnderscoreCamelize("group_id");
  }

  lemma DateKeyName()
    ensures SnakeName("date") && Underscore(DateKey) == "date"
  {
    DateSnake();
    UnderscoreCamelize("date");
  }

  lemma ImpressionsKeyName()
    ensures SnakeName("impressions") && Underscore(ImpressionsKey) == "impressions"
  {
    ImpressionsSnake();
    UnderscoreCamelize("impressions");
  }

  lemma ShowsKeyName()
    ensures SnakeName("shows") && Underscore(ShowsKey) == "shows"
  {
    ShowsSnake();
    UnderscoreCamelize("shows");
  }

  lemma AccountIdKeyName()
    ensures SnakeName("account_id") && Underscore(AccountIdKey) == "account_id"
  {
    AccountIdSnake();
    UnderscoreCamelize("account_id");
  }

  lemma CampaignPtrIdKeyName()
    ensures SnakeName("campaign_ptr_id") && Underscore(CampaignPtrIdKey) == "campaign_ptr_id"
  {
    CampaignPtrIdSnake();
    UnderscoreCamelize("campaign_ptr_id");
  }

  // ---------------------------------------------------------------- dictionary steps

  /** `d[k]`: the value at `k`, or a KeyError. */
  function Get(d: Dict, k: string): (r: Result<Value, CodecError>)
    ensures r.Ok? <==> HasKey(d, k)
    ensures r.Ok? ==> Lookup(d, k) == Some(r.value)
    ensures r.Err? ==> r.error == KeyError(k)
  {
    match Lookup(d, k)
    case None => Err(KeyError(k))
    case Some(v) => Ok(v)
  }

  /** `d.pop(k)` without a default: the dictionary without `k`, or a KeyError. */
  function PopKey(d: Dict, k: string): (r: Result<Dict, CodecError>)
    ensures r.Ok? <==> HasKey(d, k)
    ensures r.Ok? ==> r.value == Pop(d, k)
    ensures r.Err? ==> r.error == KeyError(k)
  {
    if HasKey(d, k) then Ok(Pop(d, k)) else Err(KeyError(k))
  }

  /** `d[to] = d.pop(from)`. */
  function Rename(d: Dict, from: string, to: string): Result<Dict, CodecError> {
    var v :- Get(d, from);
    Ok(Put(Pop(d, from), to, v))
  }

  /** `d[to] = d.pop(from)` fails exactly when `from` is absent; otherwise `to` holds what
      `from` held, `from` is gone and every other key holds what it held, and the keys stay
      camel keys unless another key already names the attribute of `to`. */
  lemma RenameLookups(d: Dict, from: string, to: string)
    ensures Rename(d, from, to).Ok? <==> HasKey(d, from)
    ensures Rename(d, from, to).Err? ==> Rename(d, from, to).error == KeyError(from)
    ensures Rename(d, from, to).Ok? ==> forall k :: (Lookup(Rename(d, from, to).value, k)
      == if k == to then Lookup(d, from) else if k == from then None else Lookup(d, k))
    ensures Rename(d, from, to).Ok? && CamelKeys(d)
      && (forall k :: HasKey(d, k) && k != from && Underscore(k) == Underscore(to) ==> k == to)
      ==> CamelKeys(Rename(d, from, to).value)
  {
    if HasKey(d, from) {
      var p := Pop(d, from);
      var v := Lookup(d, from).value;
      forall k ensures Lookup(Put(p, to, v), k) == if k == to then Lookup(d, from) else if k == from then None else Lookup(d, k) {
        LookupPut(p, to, v, k);
        LookupPop(d, from, k);
      }
      if CamelKeys(d) && (forall k :: HasKey(d, k) && k != from && Underscore(k) == Underscore(to) ==> k == to) {
        PopCamelKeys(d, from);
        PutCamelKeys(p, to, v);
      }
    }
  }

  /** `d[k] = v` at a key that is already present keeps camel keys. */
  lemma PutPresentCamelKeys(d: Dict, k: string, v: Value)
    requires CamelKeys(d) && HasKey(d, k)
    ensures CamelKeys(Put(d, k, v))
    ensures forall k' :: Lookup(Put(d, k, v), k') == if k' == k then Some(v) else Lookup(d, k')
  {
    PutCamelKeys(d, k, v);
    forall k' ensures Lookup(Put(d, k, v), k') == if k' == k then Some(v) else Lookup(d, k') {
      LookupPut(d, k, v, k');
    }
  }

  /** An object whose keys are those of a camel-keyed `b` and possibly one more key `extra`,
      whose attribute no key of `b` names, has camel keys. */
  lemma CamelKeysExtend(a: Dict, b: Dict, extra: string)
    requires DistinctKeys(a) && CamelKeys(b)
    requires forall k :: HasKey(a, k) ==> HasKey(b, k) || k == extra
    requires forall k :: HasKey(b, k) ==> Underscore(k) != Underscore(extra)
    ensures CamelKeys(a)
  {
  }

  /** `v / 10_000` on the numbers the API sends, a float; anything else raises a TypeError. */
  function Div10000(v: Value): (r: Result<Value, CodecError>)
    ensures r.Ok? <==> v.Int? || v.Bool? || v.Quot?
    ensures v.Int? ==> r == Ok(Quot(v.i, 10000))
  {
    match v
    case Int(i) => Ok(Quot(i, 10000))
    case Bool(b) => Ok(Quot(if b then 1 else 0, 10000))
    case Quot(n, d) => Ok(Quot(n, d * 10000))
    case _ => Err(TypeError)
  }

  /** `int(b * 10_000 / 10_000) == b`. */
  lemma TruncDivScaled(b: int)
    ensures TruncDiv(b * 10000, 10000) == b
  {
    if b < 0 {
      assert -(b * 10000) == (-b) * 10000;
    }
  }

  // ---------------------------------------------------------------- Region

  /** `Region.deserialize`: the API's `GeoRegionId` becomes the key `id`. */
  function RegionDeserialize(data: Dict): Result<Decoded, CodecError> {
    var d :- Rename(data, "GeoRegionId", "id");
    Deserialize(RegionModel, d)
  }

  /** A region's `id` is its converted `GeoRegionId`, which must be present; the region is not
      readable when that id is not an integer. */
  lemma RegionDeserializeId(data: Dict)
    requires CamelKeys(data)
    requires forall k :: HasKey(data, k) && k != "GeoRegionId" && Underscore(k) == "id" ==> k == "id"
    ensures !HasKey(data, "GeoRegionId") ==> RegionDeserialize(data) == Err(KeyError("GeoRegionId"))
    ensures HasKey(data, "GeoRegionId") && RegionDeserialize(data).Ok? ==>
      var r := RegionDeserialize(data).value;
      Convert(IntKind, Lookup(data, "GeoRegionId").value).Ok? && "id" in r.attrs
      && r.attrs["id"] == Convert(IntKind, Lookup(data, "GeoRegionId").value).value && "id" !in r.updated
    ensures HasKey(data, "GeoRegionId") && Convert(IntKind, Lookup(data, "GeoRegionId").value).Err? ==>
      RegionDeserialize(data).Err?
  {
    RenameLookups(data, "GeoRegionId", "id");
    if HasKey(data, "GeoRegionId") {
      RegionIdField();
      RenamedRead(RegionModel, data, "GeoRegionId", "id");
    }
  }

  /** A region's `id` is its integer attribute. */
  lemma RegionIdField()
    ensures Underscore("id") == "id" && "id" in FieldNames(RegionModel) && KindIn(RegionModel.fields, "id") == IntKind
  {
    assert Underscore("id") == "id";
    KindInAt(RegionModel.fields, 0);
    assert RegionModel.fields[0] == Field("id", IntKind);
  }

  /** Reading a dictionary after `d[to] = d.pop(from)`: the attribute named by `to` is the
      converted value `from` held, and the dictionary is unreadable when that value does not
      convert. */
  lemma RenamedRead(m: Model, data: Dict, from: string, to: string)
    requires CamelKeys(data) && HasKey(data, from)
    requires forall k :: HasKey(data, k) && k != from && Underscore(k) == Underscore(to) ==> k == to
    requires Underscore(to) in FieldNames(m)
    ensures Rename(data, from, to).Ok?
    ensures Deserialize(m, Rename(data, from, to).value).Ok? ==>
      Convert(KindIn(m.fields, Underscore(to)), Lookup(data, from).value).Ok?
      && Underscore(to) in Kwargs(m, Rename(data, from, to).value).value
      && Kwargs(m, Rename(data, from, to).value).value[Underscore(to)]
         == Convert(KindIn(m.fields, Underscore(to)), Lookup(data, from).value).value
    ensures Convert(KindIn(m.fields, Underscore(to)), Lookup(data, from).value).Err? ==>
      Deserialize(m, Rename(data, from, to).value).Err?
  {
    RenameLookups(data, from, to);
    var d := Rename(data, from, to).value;
    assert Lookup(d, to) == Lookup(data, from);
    KwargsAt(m, d, to);
  }

  // ---------------------------------------------------------------- steps shared by the models

  /** `d[k] = d[k] / 10_000`. */
  function DivAt(d: Dict, k: string): Result<Dict, CodecError> {
    var v :- Get(d, k);
    var q :- Div10000(v);
    Ok(Put(d, k, q))
  }

  /** `d[k] / 10_000` raises a KeyError for a missing `k` and a TypeError for a value that is
      not a number; otherwise only `k` changes, to the quotient, and the keys stay camel keys. */
  lemma DivAtLookups(d: Dict, k: string)
    ensures !HasKey(d, k) ==> DivAt(d, k) == Err(KeyError(k))
    ensures HasKey(d, k) && Div10000(Lookup(d, k).value).Err? ==> DivAt(d, k) == Err(TypeError)
    ensures DivAt(d, k).Ok? <==> HasKey(d, k) && Div10000(Lookup(d, k).value).Ok?
    ensures DivAt(d, k).Ok? ==> forall k' :: (Lookup(DivAt(d, k).value, k') ==
      if k' == k then Some(Div10000(Lookup(d, k).value).value) else Lookup(d, k'))
    ensures DivAt(d, k).Ok? && CamelKeys(d) ==> CamelKeys(DivAt(d, k).value)
  {
    if HasKey(d, k) && Div10000(Lookup(d, k).value).Ok? {
      var q := Div10000(Lookup(d, k).value).value;
      forall k' ensures Lookup(Put(d, k, q), k') == if k' == k then Some(q) else Lookup(d, k') { LookupPut(d, k, q, k'); }
      if CamelKeys(d) { PutCamelKeys(d, k, q); }
    }
  }

  /** `d[to] = d[from]`. */
  function CopyKey(d: Dict, from: string, to: string): Result<Dict, CodecError> {
    var v :- Get(d, from);
    Ok(Put(d, to, v))
  }

  /** `d[to] = d[from]` raises a KeyError for a missing `from`; otherwise only `to` changes,
      to what `from` holds, and the keys stay camel keys unless another key already names the
      attribute of `to`. */
  lemma CopyKeyLookups(d: Dict, from: string, to: string)
    ensures CopyKey(d, from, to).Ok? <==> HasKey(d, from)
    ensures CopyKey(d, from, to).Err? ==> CopyKey(d, from, to).error == KeyError(from)
    ensures CopyKey(d, from, to).Ok? ==> forall k :: (Lookup(CopyKey(d, from, to).value, k) ==
      if k == to then Lookup(d, from) else Lookup(d, k))
    ensures (CopyKey(d, from, to).Ok? && CamelKeys(d)
      && (forall k :: HasKey(d, k) && Underscore(k) == Underscore(to) ==> k == to)
      ==> CamelKeys(CopyKey(d, from, to).value))
  {
    if HasKey(d, from) {
      var v := Lookup(d, from).value;
      forall k ensures Lookup(Put(d, to, v), k) == if k == to then Some(v) else Lookup(d, k) { LookupPut(d, to, v, k); }
      if CamelKeys(d) && (forall k :: HasKey(d, k) && Underscore(k) == Underscore(to) ==> k == to) {
        PutCamelKeys(d, to, v);
      }
    }
  }

  /** Renaming the key `serialize` wrote for attribute `n`: it fails with a KeyError exactly
      when the attribute was not written; otherwise `to` holds the attribute's value, the
      attribute's own key is gone, and every other key holds what `serialize` wrote. */
  lemma RenameSerialized(m: Model, rec: map<string, Value>, exclude: set<string>, includeNull: bool, n: string, to: string)
    requires WellFormed(m) && SnakeName(n) && n in FieldNames(m)
    ensures var r := Rename(Serialize(m, rec, exclude, includeNull), Camelize(n), to);
      (r.Ok? <==> n !in exclude && (includeNull || Truthy(Attr(rec, n))))
      && (r.Err? ==> r.error == KeyError(Camelize(n)))
    ensures var s := Serialize(m, rec, exclude, includeNull);
      var r := Rename(s, Camelize(n), to);
      r.Ok? ==> forall k :: (Lookup(r.value, k) ==
        if k == to then Some(Attr(rec, n)) else if k == Camelize(n) then None else Lookup(s, k))
  {
    var s := Serialize(m, rec, exclude, includeNull);
    RenameLookups(s, Camelize(n), to);
    SerializeFieldsLookup(m.fields, rec, exclude, includeNull, n);
  }

  // ---------------------------------------------------------------- Keyword

  /** A model with the attributes of a keyword that the codec touches by name, and no
      attribute named by the API key `Keyword`. */
  predicate KeywordShaped(m: Model) {
    WellFormed(m)
    && "text" in FieldNames(m) && KindIn(m.fields, "text") == TextKind
    && "bid" in FieldNames(m) && KindIn(m.fields, "bid") == IntKind
    && "context_bid" in FieldNames(m) && KindIn(m.fields, "context_bid") == IntKind
    && "keyword" !in FieldNames(m) && m.pkAttname != "bid" && m.pkAttname != "context_bid"
  }

  lemma KeywordFields()
    ensures KeywordShaped(KeywordModel)
  {
    KeywordModelWellFormed();
    KeywordKinds();
    KeywordNoKeywordField();
  }

  lemma KeywordKinds()
    ensures "text" in FieldNames(KeywordModel) && KindIn(KeywordModel.fields, "text") == TextKind
    ensures "bid" in FieldNames(KeywordModel) && KindIn(KeywordModel.fields, "bid") == IntKind
    ensures "context_bid" in FieldNames(KeywordModel) && KindIn(KeywordModel.fields, "context_bid") == IntKind
  {
    KeywordModelDistinctNames();
    var fs := KeywordModel.fields;
    assert fs[3] == Field("text", TextKind) && fs[4] == Field("bid", IntKind) && fs[5] == Field("context_bid", IntKind);
    KindInAt(fs, 3);
    KindInAt(fs, 4);
    KindInAt(fs, 5);
  }

  lemma KeywordNoKeywordField()
    ensures "keyword" !in FieldNames(KeywordModel)
  {
    KeywordApiOnlyNames();
    assert "keyword" in KeywordApiOnly;
  }

  /** The object `Keyword.deserialize` hands to the mixin: both bids divided by 10 000 in
      place and `Text` set from `Keyword`. */
  function KeywordInput(data: Dict): Result<Dict, CodecError> {
    var d1 :- DivAt(data, BidKey);
    var d2 :- DivAt(d1, ContextBidKey);
    CopyKey(d2, KeywordKey, TextKey)
  }

  /** `Keyword.deserialize`. */
  function KeywordDeserialize(data: Dict): Result<Decoded, CodecError> {
    var d :- KeywordInput(data);
    Deserialize(KeywordModel, d)
  }

  /** The API keyword has both bids, numeric, and its text. */
  predicate KeywordComplete(data: Dict) {
    HasKey(data, BidKey) && HasKey(data, ContextBidKey) && HasKey(data, KeywordKey)
    && Div10000(Lookup(data, BidKey).value).Ok? && Div10000(Lookup(data, ContextBidKey).value).Ok?
  }

  /** The two bid keys and the text keys are four different keys. */
  lemma KeywordKeysDiffer()
    ensures BidKey != ContextBidKey && BidKey != KeywordKey && BidKey != TextKey
    ensures ContextBidKey != KeywordKey && ContextBidKey != TextKey && KeywordKey != TextKey
    ensures Underscore(TextKey) == "text" && Underscore(KeywordKey) == "keyword"
    ensures Underscore(BidKey) == "bid" && Underscore(ContextBidKey) == "context_bid"
  {
    BidKeyName();
    ContextBidKeyName();
    KeywordKeyName();
    TextKeyName();
  }

  /** `Keyword.deserialize` raises a KeyError for a missing `Bid`, `ContextBid` or `Keyword`,
      in that order, and a TypeError for a bid that is not a number; it succeeds on every
      complete keyword. */
  lemma KeywordInputErrors(data: Dict)
    ensures !HasKey(data, BidKey) ==> KeywordInput(data) == Err(KeyError(BidKey))
    ensures HasKey(data, BidKey) && Div10000(Lookup(data, BidKey).value).Err? ==> KeywordInput(data) == Err(TypeError)
    ensures (HasKey(data, BidKey) && Div10000(Lookup(data, BidKey).value).Ok? && !HasKey(data, ContextBidKey)
      ==> KeywordInput(data) == Err(KeyError(ContextBidKey)))
    ensures (HasKey(data, BidKey) && Div10000(Lookup(data, BidKey).value).Ok? && HasKey(data, ContextBidKey)
      && Div10000(Lookup(data, ContextBidKey).value).Err?
      ==> KeywordInput(data) == Err(TypeError))
    ensures (HasKey(data, BidKey) && Div10000(Lookup(data, BidKey).value).Ok? && HasKey(data, ContextBidKey)
      && Div10000(Lookup(data, ContextBidKey).value).Ok? && !HasKey(data, KeywordKey)
      ==> KeywordInput(data) == Err(KeyError(KeywordKey)))
    ensures KeywordInput(data).Ok? <==> KeywordComplete(data)
  {
    KeywordKeysDiffer();
    DivAtLookups(data, BidKey);
    if DivAt(data, BidKey).Ok? {
      var d1 := DivAt(data, BidKey).value;
      DivAtLookups(d1, ContextBidKey);
      assert Lookup(d1, ContextBidKey) == Lookup(data, ContextBidKey);
      if DivAt(d1, ContextBidKey).Ok? {
        var d2 := DivAt(d1, ContextBidKey).value;
        CopyKeyLookups(d2, KeywordKey, TextKey);
        assert Lookup(d2, KeywordKey) == Lookup(data, KeywordKey);
      }
    }
  }

  /** On a complete keyword the mixin reads `Bid` and `ContextBid` divided by 10 000, `Text`
      as the `Keyword`, and every other key as sent. */
  lemma KeywordInputLookups(data: Dict)
    requires KeywordComplete(data)
    ensures KeywordInput(data).Ok?
    ensures forall k :: (Lookup(KeywordInput(data).value, k) ==
      if k == BidKey then Some(Div10000(Lookup(data, BidKey).value).value)
      else if k == ContextBidKey then Some(Div10000(Lookup(data, ContextBidKey).value).value)
      else if k == TextKey then Lookup(data, KeywordKey)
      else Lookup(data, k))
  {
    KeywordInputErrors(data);
    KeywordKeysDiffer();
    DivAtLookups(data, BidKey);
    var d1 := DivAt(data, BidKey).value;
    DivAtLookups(d1, ContextBidKey);
    var d2 := DivAt(d1, ContextBidKey).value;
    CopyKeyLookups(d2, KeywordKey, TextKey);
    var d3 := CopyKey(d2, KeywordKey, TextKey).value;
    assert KeywordInput(data) == Ok(d3);
    forall k ensures Lookup(d3, k) == (
      if k == BidKey then Some(Div10000(Lookup(data, BidKey).value).value)
      else if k == ContextBidKey then Some(Div10000(Lookup(data, ContextBidKey).value).value)
      else if k == TextKey then Lookup(data, KeywordKey)
      else Lookup(data, k))
    {
      assert Lookup(d3, k) == if k == TextKey then Lookup(d2, KeywordKey) else Lookup(d2, k);
    }
  }

  /** Dividing two entries in place and then copying one key to `to` keeps camel keys when
      no key other than `to` names the attribute of `to`. */
  lemma DivDivCopyCamelKeys(data: Dict, a: string, b: string, from: string, to: string)
    requires CamelKeys(data)
    requires forall k :: HasKey(data, k) && Underscore(k) == Underscore(to) ==> k == to
    requires DivAt(data, a).Ok? && DivAt(DivAt(data, a).value, b).Ok?
    ensures var d2 := DivAt(DivAt(data, a).value, b).value;
      CopyKey(d2, from, to).Ok? ==> CamelKeys(CopyKey(d2, from, to).value)
  {
    DivAtLookups(data, a);
    var d1 := DivAt(data, a).value;
    DivAtLookups(d1, b);
    var d2 := DivAt(d1, b).value;
    forall k | HasKey(d2, k) && Underscore(k) == Underscore(to) ensures k == to {
      assert Lookup(d2, k).Some?;
      assert Lookup(d1, k).Some?;
    }
    CopyKeyLookups(d2, from, to);
  }

  /** The object handed to the mixin keeps camel keys when no key of the API keyword other
      than `Text` names the attribute `text`. */
  lemma KeywordInputCamelKeys(data: Dict)
    requires KeywordComplete(data) && CamelKeys(data)
    requires forall k :: HasKey(data, k) && Underscore(k) == "text" ==> k == TextKey
    ensures KeywordInput(data).Ok? && CamelKeys(KeywordInput(data).value)
  {
    KeywordInputErrors(data);
    TextKeyName();
    DivDivCopyCamelKeys(data, BidKey, ContextBidKey, KeywordKey, TextKey);
  }

  /** `Keyword.serialize` on what the mixin wrote: `Text` is renamed `Keyword`; the bids go
      out as stored. */
  function KeywordRenamed(s: Dict): Result<Dict, CodecError> {
    Rename(s, TextKey, KeywordKey)
  }

  /** `Keyword.serialize`. */
  function KeywordSerialize(rec: map<string, Value>, exclude: set<string>, includeNull: bool): Result<Dict, CodecError> {
    KeywordRenamed(Serialize(KeywordModel, rec, exclude, includeNull))
  }

  /** An integer at `k` multiplied by 10 000, the conversion of kopecks to API units that
      `send_bids` applies. */
  function Scaled(d: Dict, k: string): Dict {
    match Lookup(d, k)
    case Some(Int(i)) => Put(d, k, Int(i * 10000))
    case _ => d
  }

  lemma ScaledLookups(d: Dict, k: string)
    ensures forall k' :: (Lookup(Scaled(d, k), k') ==
      if k' == k && Lookup(d, k).Some? && Lookup(d, k).value.Int? then Some(Int(Lookup(d, k).value.i * 10000))
      else Lookup(d, k'))
    ensures CamelKeys(d) ==> CamelKeys(Scaled(d, k))
  {
    if Lookup(d, k).Some? && Lookup(d, k).value.Int? {
      var v := Int(Lookup(d, k).value.i * 10000);
      forall k' ensures Lookup(Put(d, k, v), k') == if k' == k then Some(v) else Lookup(d, k') {
        LookupPut(d, k, v, k');
      }
      if CamelKeys(d) {
        PutPresentCamelKeys(d, k, v);
      }
    }
  }

  /** Both bids of a keyword payload in API units. */
  function ScaledBids(d: Dict): Dict {
    Scaled(Scaled(d, BidKey), ContextBidKey)
  }

  /** `Keyword.serialize` with both bids converted to API units. */
  function KeywordSerializeScaled(rec: map<string, Value>, exclude: set<string>, includeNull: bool): Result<Dict, CodecError> {
    var p :- KeywordSerialize(rec, exclude, includeNull);
    Ok(ScaledBids(p))
  }

  /** For any keyword-shaped model: renaming fails with a KeyError exactly when the text was
      not written; otherwise the text is under `Keyword`, there is no `Text`, and everything
      else is as the mixin wrote it. */
  lemma KeywordRenamedSerialized(m: Model, rec: map<string, Value>, exclude: set<string>, includeNull: bool)
    requires KeywordShaped(m)
    ensures var r := KeywordRenamed(Serialize(m, rec, exclude, includeNull));
      (r.Ok? <==> "text" !in exclude && (includeNull || Truthy(Attr(rec, "text"))))
      && (r.Err? ==> r.error == KeyError(TextKey))
    ensures var s := Serialize(m, rec, exclude, includeNull);
      var r := KeywordRenamed(s);
      r.Ok? ==>
        (Lookup(r.value, KeywordKey) == Some(Attr(rec, "text")) && !HasKey(r.value, TextKey)
         && forall k :: k != KeywordKey && k != TextKey ==> Lookup(r.value, k) == Lookup(s, k))
  {
    KeywordKeysDiffer();
    TextKeyName();
    RenameSerialized(m, rec, exclude, includeNull, "text", KeywordKey);
  }

  /** The serialized keyword carries its text under `Keyword` and no `Text`, and everything
      else as the mixin wrote it; it fails with a KeyError exactly when the text was not
      written (excluded, or empty without `include_null`). */
  lemma KeywordSerializeKeys(rec: map<string, Value>, exclude: set<string>, includeNull: bool)
    ensures var r := KeywordSerialize(rec, exclude, includeNull);
      (r.Ok? <==> "text" !in exclude && (includeNull || Truthy(Attr(rec, "text"))))
      && (r.Err? ==> r.error == KeyError(TextKey))
    ensures var r := KeywordSerialize(rec, exclude, includeNull);
      var s := Serialize(KeywordModel, rec, exclude, includeNull);
      r.Ok? ==>
        (Lookup(r.value, KeywordKey) == Some(Attr(rec, "text")) && !HasKey(r.value, TextKey)
         && forall k :: k != KeywordKey && k != TextKey ==> Lookup(r.value, k) == Lookup(s, k))
  {
    KeywordFields();
    KeywordRenamedSerialized(KeywordModel, rec, exclude, includeNull);
  }

  /** A keyword record whose text and both bids are set and sent. */
  predicate KeywordSendable(m: Model, rec: map<string, Value>, exclude: set<string>) {
    Conforming(m, rec)
    && "text" !in exclude && "bid" !in exclude && "context_bid" !in exclude
    && Truthy(Attr(rec, "text")) && Truthy(Attr(rec, "bid")) && Truthy(Attr(rec, "context_bid"))
  }

  /** An integer attribute of a conforming record that is set holds an integer. */
  lemma ConformingInt(m: Model, rec: map<string, Value>, n: string)
    requires WellFormed(m) && Conforming(m, rec)
    requires n in FieldNames(m) && KindIn(m.fields, n) == IntKind && Truthy(Attr(rec, n))
    ensures Attr(rec, n).Int?
  {
    var i :| 0 <= i < |m.fields| && m.fields[i].attname == n;
    KindInAt(m.fields, i);
  }

  /** What the mixin writes for a sendable keyword: camel keys naming attributes, the text
      under `Text` and the bids, integers, under `Bid` and `ContextBid`. */
  lemma KeywordSerializedFacts(m: Model, rec: map<string, Value>, exclude: set<string>)
    requires KeywordShaped(m) && KeywordSendable(m, rec, exclude)
    ensures var s := Serialize(m, rec, exclude, false);
      CamelKeys(s) && (forall k :: HasKey(s, k) ==> Underscore(k) in FieldNames(m) && Camelize(Underscore(k)) == k)
      && Lookup(s, TextKey) == Some(Attr(rec, "text"))
      && Lookup(s, BidKey) == Some(Attr(rec, "bid")) && Attr(rec, "bid").Int?
      && Lookup(s, ContextBidKey) == Some(Attr(rec, "context_bid")) && Attr(rec, "context_bid").Int?
  {
    KeywordKeysDiffer();
    SerializeKeys(m, rec, exclude, false);
    SerializeFieldsLookup(m.fields, rec, exclude, false, "text");
    SerializeFieldsLookup(m.fields, rec, exclude, false, "bid");
    SerializeFieldsLookup(m.fields, rec, exclude, false, "context_bid");
    ConformingInt(m, rec, "bid");
    ConformingInt(m, rec, "context_bid");
  }

  /** A dictionary as the mixin writes a sendable keyword: camel keys, none naming the
      attribute `keyword`, the text under `Text` only, and integer bids `b` and `c`. */
  ghost predicate KeywordWritten(s: Dict, t: Value, b: int, c: int) {
    CamelKeys(s)
    && (forall k :: HasKey(s, k) ==> Underscore(k) != "keyword" && (Underscore(k) == "text" ==> k == TextKey))
    && Lookup(s, TextKey) == Some(t) && Lookup(s, BidKey) == Some(Int(b)) && Lookup(s, ContextBidKey) == Some(Int(c))
  }

  /** The renamed payload, with the bids multiplied by `f` (10 000 when they are converted to
      API units, 1 when they are sent as stored). */
  lemma KeywordPayloadLookups(s: Dict, t: Value, b: int, c: int, scale: bool)
    requires KeywordWritten(s, t, b, c)
    ensures KeywordRenamed(s).Ok?
    ensures var p := KeywordRenamed(s).value;
      var q := if scale then ScaledBids(p) else p;
      var f := if scale then 10000 else 1;
      CamelKeys(q) && !HasKey(q, TextKey)
      && Lookup(q, BidKey) == Some(Int(b * f)) && Lookup(q, ContextBidKey) == Some(Int(c * f))
      && Lookup(q, KeywordKey) == Some(t)
      && (forall k :: k != BidKey && k != ContextBidKey && k != KeywordKey && k != TextKey ==> Lookup(q, k) == Lookup(s, k))
  {
    KeywordKeysDiffer();
    RenameLookups(s, TextKey, KeywordKey);
    var p := KeywordRenamed(s).value;
    ScaledLookups(p, BidKey);
    ScaledLookups(Scaled(p, BidKey), ContextBidKey);
  }

  /** `Keyword.deserialize`'s first step on an object with integer bids `b` and `c`, the
      text `t` under `Keyword` and no key naming the attribute `text`. */
  lemma KeywordInputOf(q: Dict, t: Value, b: int, c: int)
    requires CamelKeys(q) && Lookup(q, KeywordKey) == Some(t)
    requires Lookup(q, BidKey) == Some(Int(b)) && Lookup(q, ContextBidKey) == Some(Int(c))
    requires forall k :: HasKey(q, k) ==> Underscore(k) != "text"
    ensures KeywordInput(q).Ok? && CamelKeys(KeywordInput(q).value)
    ensures forall k :: (Lookup(KeywordInput(q).value, k) ==
      if k == BidKey then Some(Quot(b, 10000))
      else if k == ContextBidKey then Some(Quot(c, 10000))
      else if k == TextKey then Some(t)
      else Lookup(q, k))
  {
    assert KeywordComplete(q);
    KeywordInputLookups(q);
    KeywordInputCamelKeys(q);
  }

  /** A payload made from what the mixin wrote, without `Text`, has no key naming the
      attribute `text`. */
  lemma KeywordPayloadNoText(s: Dict, q: Dict, t: Value, b0: int, c0: int)
    requires KeywordWritten(s, t, b0, c0) && !HasKey(q, TextKey)
    requires forall k :: k != BidKey && k != ContextBidKey && k != KeywordKey && k != TextKey ==> Lookup(q, k) == Lookup(s, k)
    ensures forall k :: HasKey(q, k) ==> Underscore(k) != "text"
  {
    KeywordKeysDiffer();
    forall k | HasKey(q, k) ensures Underscore(k) != "text" {
      assert Lookup(q, k).Some?;
      if k != BidKey && k != ContextBidKey && k != KeywordKey {
        assert HasKey(s, k);
      }
    }
  }

  /** `Keyword.deserialize`'s first step on a payload `q` made from what the mixin wrote
      (`s`) by renaming and possibly rescaling the bids to `b` and `c`: the bids are read
      divided by 10 000, the text is back under `Text` (and still under `Keyword`), and every
      other key is as the mixin wrote it; the keys stay camel keys. */
  lemma KeywordPayloadInput(s: Dict, q: Dict, t: Value, b: int, c: int, b0: int, c0: int)
    requires KeywordWritten(s, t, b0, c0)
    requires CamelKeys(q) && !HasKey(q, TextKey)
    requires Lookup(q, BidKey) == Some(Int(b)) && Lookup(q, ContextBidKey) == Some(Int(c))
    requires Lookup(q, KeywordKey) == Some(t)
    requires forall k :: k != BidKey && k != ContextBidKey && k != KeywordKey && k != TextKey ==> Lookup(q, k) == Lookup(s, k)
    ensures KeywordInput(q).Ok? && CamelKeys(KeywordInput(q).value)
    ensures forall k :: (Lookup(KeywordInput(q).value, k) ==
        if k == BidKey then Some(Quot(b, 10000))
        else if k == ContextBidKey then Some(Quot(c, 10000))
        else if k == KeywordKey then Some(t)
        else Lookup(s, k))
  {
    KeywordPayloadNoText(s, q, t, b0, c0);
    KeywordKeysDiffer();
    KeywordInputOf(q, t, b, c);
  }

  /** A sendable keyword as the mixin writes it. */
  lemma KeywordWrittenFor(m: Model, rec: map<string, Value>, exclude: set<string>)
    requires KeywordShaped(m) && KeywordSendable(m, rec, exclude)
    ensures Attr(rec, "bid").Int? && Attr(rec, "context_bid").Int?
    ensures KeywordWritten(Serialize(m, rec, exclude, false), Attr(rec, "text"), Attr(rec, "bid").i, Attr(rec, "context_bid").i)
  {
    KeywordSerializedFacts(m, rec, exclude);
  }

  /** A bid sent in API units and divided by 10 000 on the way back converts to the bid. */
  lemma ConvertScaledBid(b: int)
    ensures Convert(IntKind, Quot(b * 10000, 10000)) == Ok(Int(b))
  {
    TruncDivScaled(b);
  }

  /** The object `d` the mixin is handed against what it wrote, `s`: the values under `bk`
      and `ck` replaced by `bv` and `cv`, `kv` added under `kk`, every other key as written. */
  ghost predicate Replaced(s: Dict, d: Dict, bk: string, bv: Value, ck: string, cv: Value, kk: string, kv: Value) {
    forall k :: (Lookup(d, k) ==
        if k == bk then Some(bv) else if k == ck then Some(cv) else if k == kk then Some(kv)
        else Lookup(s, k))
  }

  /** Replacing two present values and adding a key that names no attribute keeps the set
      of keys naming attributes. */
  lemma ReplacedKeys(names: set<string>, s: Dict, d: Dict, bk: string, bv: Value, ck: string, cv: Value, kk: string, kv: Value)
    requires Underscore(kk) !in names && HasKey(s, bk) && HasKey(s, ck) && Replaced(s, d, bk, bv, ck, cv, kk, kv)
    ensures forall k :: Underscore(k) in names ==> (HasKey(d, k) <==> HasKey(s, k))
  {
    forall k | Underscore(k) in names ensures HasKey(d, k) <==> HasKey(s, k) {
      assert Lookup(d, k).Some? <==> Lookup(s, k).Some?;
    }
  }

  /** When the replaced values convert as the written ones do, every value naming an
      attribute converts the same. */
  lemma ReplacedSameConverts(m: Model, s: Dict, d: Dict, bk: string, bv: Value, ck: string, cv: Value, kk: string, kv: Value)
    requires Underscore(kk) !in FieldNames(m) && HasKey(s, bk) && HasKey(s, ck) && Replaced(s, d, bk, bv, ck, cv, kk, kv)
    requires Convert(KindIn(m.fields, Underscore(bk)), bv) == Convert(KindIn(m.fields, Underscore(bk)), Lookup(s, bk).value)
    requires Convert(KindIn(m.fields, Underscore(ck)), cv) == Convert(KindIn(m.fields, Underscore(ck)), Lookup(s, ck).value)
    ensures forall k :: HasKey(d, k) && HasKey(s, k) && Underscore(k) in FieldNames(m) ==>
      Convert(KindIn(m.fields, Underscore(k)), Lookup(d, k).value) == Convert(KindIn(m.fields, Underscore(k)), Lookup(s, k).value)
  {
  }

  /** When the replaced values convert at all, so does every value naming an attribute. */
  lemma ReplacedConvertsOk(m: Model, s: Dict, d: Dict, bk: string, bv: Value, ck: string, cv: Value, kk: string, kv: Value)
    requires Underscore(kk) !in FieldNames(m) && Replaced(s, d, bk, bv, ck, cv, kk, kv)
    requires Convert(KindIn(m.fields, Underscore(bk)), bv).Ok? && Convert(KindIn(m.fields, Underscore(ck)), cv).Ok?
    requires forall k :: HasKey(s, k) && Underscore(k) in FieldNames(m) ==> Convert(KindIn(m.fields, Underscore(k)), Lookup(s, k).value).Ok?
    ensures forall k :: HasKey(d, k) && Underscore(k) in FieldNames(m) ==> Convert(KindIn(m.fields, Underscore(k)), Lookup(d, k).value).Ok?
  {
    forall k | HasKey(d, k) && Underscore(k) in FieldNames(m)
      ensures Convert(KindIn(m.fields, Underscore(k)), Lookup(d, k).value).Ok?
    {
      assert Lookup(d, k).Some?;
      if k != bk && k != ck {
        assert HasKey(s, k);
      }
    }
  }

  /** Such an object gives the same keyword arguments as what was written, whenever the
      replaced values convert as the written ones do. */
  lemma ReplacedAgree(m: Model, s: Dict, d: Dict, bk: string, bv: Value, ck: string, cv: Value, kk: string, kv: Value)
    requires CamelKeys(s) && CamelKeys(d)
    requires Underscore(kk) !in FieldNames(m) && HasKey(s, bk) && HasKey(s, ck) && Replaced(s, d, bk, bv, ck, cv, kk, kv)
    requires Convert(KindIn(m.fields, Underscore(bk)), bv) == Convert(KindIn(m.fields, Underscore(bk)), Lookup(s, bk).value)
    requires Convert(KindIn(m.fields, Underscore(ck)), cv) == Convert(KindIn(m.fields, Underscore(ck)), Lookup(s, ck).value)
    ensures Kwargs(m, d).Ok? <==> Kwargs(m, s).Ok?
    ensures Kwargs(m, d).Ok? ==> Kwargs(m, d) == Kwargs(m, s)
  {
    ReplacedKeys(FieldNames(m), s, d, bk, bv, ck, cv, kk, kv);
    ReplacedSameConverts(m, s, d, bk, bv, ck, cv, kk, kv);
    KwargsAgree(m, d, s);
  }

  /** Such an object converts whenever what was written does and the replaced values
      convert. */
  lemma ReplacedKwargsOk(m: Model, s: Dict, d: Dict, bk: string, bv: Value, ck: string, cv: Value, kk: string, kv: Value)
    requires CamelKeys(s) && CamelKeys(d) && Kwargs(m, s).Ok?
    requires Underscore(kk) !in FieldNames(m) && Replaced(s, d, bk, bv, ck, cv, kk, kv)
    requires Convert(KindIn(m.fields, Underscore(bk)), bv).Ok? && Convert(KindIn(m.fields, Underscore(ck)), cv).Ok?
    ensures Kwargs(m, d).Ok?
  {
    KwargsByLookup(m, s);
    ReplacedConvertsOk(m, s, d, bk, bv, ck, cv, kk, kv);
    KwargsByLookup(m, d);
  }

  /** What the mixin wrote for a keyword, renamed, rescaled by `scale` and read back by
      `Keyword.deserialize`'s first step: the bids as `b * scale / 10 000`. */
  lemma KeywordReadPayload(s: Dict, t: Value, b: int, c: int, scale: bool)
    requires KeywordWritten(s, t, b, c)
    ensures KeywordRenamed(s).Ok?
    ensures var p := KeywordRenamed(s).value;
      var q := if scale then ScaledBids(p) else p;
      var f := if scale then 10000 else 1;
      KeywordInput(q).Ok? && CamelKeys(KeywordInput(q).value)
      && Replaced(s, KeywordInput(q).value, BidKey, Quot(b * f, 10000), ContextBidKey, Quot(c * f, 10000), KeywordKey, t)
  {
    KeywordPayloadLookups(s, t, b, c, scale);
    var p := KeywordRenamed(s).value;
    var q := if scale then ScaledBids(p) else p;
    var f := if scale then 10000 else 1;
    KeywordPayloadInput(s, q, t, b * f, c * f, b, c);
  }

  /** Bids sent in API units and read back divided by 10 000 give the keyword arguments of
      what the mixin wrote (the keys are parameters: `bk` and `ck` name the bids, `kk` names
      no attribute). */
  lemma ScaledReadBack(m: Model, s: Dict, d: Dict, bk: string, ck: string, kk: string, t: Value, bv: Value, cv: Value, b: int, c: int)
    requires CamelKeys(s) && CamelKeys(d) && Kwargs(m, s).Ok?
    requires bk != ck && kk != bk && kk != ck && Underscore(kk) !in FieldNames(m)
    requires KindIn(m.fields, Underscore(bk)) == IntKind && KindIn(m.fields, Underscore(ck)) == IntKind
    requires Lookup(s, bk) == Some(Int(b)) && Lookup(s, ck) == Some(Int(c))
    requires Convert(IntKind, bv) == Ok(Int(b)) && Convert(IntKind, cv) == Ok(Int(c))
    requires Replaced(s, d, bk, bv, ck, cv, kk, t)
    ensures Deserialize(m, d) == Deserialize(m, s)
  {
    ReplacedAgree(m, s, d, bk, bv, ck, cv, kk, t);
  }

  /** Bids sent as stored and read back divided by 10 000 come back as the truncated
      quotients, whenever what the mixin wrote is readable. */
  lemma UnscaledReadBack(m: Model, s: Dict, d: Dict, bk: string, ck: string, kk: string, t: Value, b: int, c: int)
    requires CamelKeys(s) && CamelKeys(d) && Kwargs(m, s).Ok?
    requires bk != ck && kk != bk && kk != ck && Underscore(kk) !in FieldNames(m)
    requires Underscore(bk) in FieldNames(m) && KindIn(m.fields, Underscore(bk)) == IntKind && m.pkAttname != Underscore(bk)
    requires Underscore(ck) in FieldNames(m) && KindIn(m.fields, Underscore(ck)) == IntKind && m.pkAttname != Underscore(ck)
    requires Replaced(s, d, bk, Quot(b, 10000), ck, Quot(c, 10000), kk, t)
    ensures Deserialize(m, d).Ok?
    ensures var r := Deserialize(m, d).value;
      Underscore(bk) in r.attrs && r.attrs[Underscore(bk)] == Int(TruncDiv(b, 10000))
      && Underscore(ck) in r.attrs && r.attrs[Underscore(ck)] == Int(TruncDiv(c, 10000))
  {
    ReplacedKwargsOk(m, s, d, bk, Quot(b, 10000), ck, Quot(c, 10000), kk, t);
    assert Lookup(d, bk) == Some(Quot(b, 10000));
    assert Lookup(d, ck) == Some(Quot(c, 10000));
    IntRead(m, d, bk, Underscore(bk), b);
    IntRead(m, d, ck, Underscore(ck), c);
  }

  /** For any keyword-shaped model: deserializing the payload `add_objects` should send (the
      bids in API units) gives back the record's non-empty, non-excluded attributes. */
  lemma KeywordRoundTripFor(m: Model, rec: map<string, Value>, exclude: set<string>)
    requires KeywordShaped(m) && KeywordSendable(m, rec, exclude)
    ensures var p := KeywordRenamed(Serialize(m, rec, exclude, false));
      p.Ok? && KeywordInput(ScaledBids(p.value)).Ok?
      && var kept := Kept(m.fields, rec, exclude);
      Deserialize(m, KeywordInput(ScaledBids(p.value)).value) == Ok(Decoded(Build(m, kept), UpdatedFields(m, kept)))
  {
    var s := Serialize(m, rec, exclude, false);
    KeywordWrittenFor(m, rec, exclude);
    var t, b, c := Attr(rec, "text"), Attr(rec, "bid").i, Attr(rec, "context_bid").i;
    KeywordReadPayload(s, t, b, c, true);
    BidKeyName();
    ContextBidKeyName();
    KeywordKeyName();
    SerializeRoundTrip(m, rec, exclude);
    ConvertScaledBid(b);
    ConvertScaledBid(c);
    ScaledReadBack(m, s, KeywordInput(ScaledBids(KeywordRenamed(s).value)).value, BidKey, ContextBidKey, KeywordKey, t,
      Quot(b * 10000, 10000), Quot(c * 10000, 10000), b, c);
  }

  /** For any keyword-shaped model: deserializing the payload `Keyword.serialize` produces
      (the bids in kopecks) reads each bid back as the kopecks divided by 10 000, truncated. */
  lemma KeywordBidsAsWrittenFor(m: Model, rec: map<string, Value>, exclude: set<string>)
    requires KeywordShaped(m) && KeywordSendable(m, rec, exclude)
    ensures var p := KeywordRenamed(Serialize(m, rec, exclude, false));
      p.Ok? && KeywordInput(p.value).Ok? && Deserialize(m, KeywordInput(p.value).value).Ok?
      && var r := Deserialize(m, KeywordInput(p.value).value).value;
      Attr(rec, "bid").Int? && Attr(rec, "context_bid").Int?
      && "bid" in r.attrs && r.attrs["bid"] == Int(TruncDiv(Attr(rec, "bid").i, 10000))
      && "context_bid" in r.attrs && r.attrs["context_bid"] == Int(TruncDiv(Attr(rec, "context_bid").i, 10000))
  {
    var s := Serialize(m, rec, exclude, false);
    KeywordWrittenFor(m, rec, exclude);
    var t, b, c := Attr(rec, "text"), Attr(rec, "bid").i, Attr(rec, "context_bid").i;
    KeywordReadPayload(s, t, b, c, false);
    SerializeRoundTrip(m, rec, exclude);
    BidKeyName();
    ContextBidKeyName();
    KeywordKeyName();
    UnscaledReadBack(m, s, KeywordInput(KeywordRenamed(s).value).value, BidKey, ContextBidKey, KeywordKey, t, b, c);
  }

  /** An integer attribute read back from `b / 10 000` under its key holds the truncated
      quotient. */
  lemma IntRead(m: Model, d: Dict, bk: string, n: string, b: int)
    requires CamelKeys(d) && Kwargs(m, d).Ok?
    requires n in FieldNames(m) && KindIn(m.fields, n) == IntKind && m.pkAttname != n
    requires Underscore(bk) == n && Lookup(d, bk) == Some(Quot(b, 10000))
    ensures Deserialize(m, d).Ok?
    ensures n in Deserialize(m, d).value.attrs && Deserialize(m, d).value.attrs[n] == Int(TruncDiv(b, 10000))
  {
    KwargsAt(m, d, bk);
  }

  /** The payload with the bids in API units, stated on the mixin's output. */
  lemma KeywordSerializeScaledOf(rec: map<string, Value>, exclude: set<string>)
    requires KeywordRenamed(Serialize(KeywordModel, rec, exclude, false)).Ok?
    ensures KeywordSerializeScaled(rec, exclude, false) == Ok(ScaledBids(KeywordRenamed(Serialize(KeywordModel, rec, exclude, false)).value))
  {
  }

  /** `Keyword.serialize`, stated on the mixin's output. */
  lemma KeywordSerializeOf(rec: map<string, Value>, exclude: set<string>)
    ensures KeywordSerialize(rec, exclude, false) == KeywordRenamed(Serialize(KeywordModel, rec, exclude, false))
  {
  }

  /** A bid below 10 000 kopecks is less than one rouble-unit of the API. */
  lemma BelowOneUnit(b: int)
    requires 0 <= b < 10000
    ensures TruncDiv(b, 10000) == 0
  {
  }

  /** `Keyword.deserialize` once its own step succeeds. */
  lemma KeywordDeserializeOf(data: Dict)
    requires KeywordInput(data).Ok?
    ensures KeywordDeserialize(data) == Deserialize(KeywordModel, KeywordInput(data).value)
  {
  }

  /** `Keyword` with the bids sent in API units (as `send_bids` does): deserializing the
      payload gives back the record's non-empty, non-excluded attributes, bids included. */
  lemma KeywordRoundTrip(rec: map<string, Value>, exclude: set<string>)
    requires KeywordSendable(KeywordModel, rec, exclude)
    ensures KeywordSerializeScaled(rec, exclude, false).Ok?
    ensures var kept := Kept(KeywordModel.fields, rec, exclude);
      KeywordDeserialize(KeywordSerializeScaled(rec, exclude, false).value)
        == Ok(Decoded(Build(KeywordModel, kept), UpdatedFields(KeywordModel, kept)))
  {
    KeywordFields();
    KeywordRoundTripFor(KeywordModel, rec, exclude);
    KeywordSerializeScaledOf(rec, exclude);
    KeywordDeserializeOf(ScaledBids(KeywordRenamed(Serialize(KeywordModel, rec, exclude, false)).value));
  }

  /** `Keyword.serialize` as written sends the bids in kopecks, which `Keyword.deserialize`
      divides by 10 000: each bid reads back as the kopecks divided by 10 000, truncated. */
  lemma KeywordBidsAsWritten(rec: map<string, Value>, exclude: set<string>)
    requires KeywordSendable(KeywordModel, rec, exclude)
    ensures KeywordSerialize(rec, exclude, false).Ok?
    ensures KeywordDeserialize(KeywordSerialize(rec, exclude, false).value).Ok?
    ensures var r := KeywordDeserialize(KeywordSerialize(rec, exclude, false).value).value;
      Attr(rec, "bid").Int? && Attr(rec, "context_bid").Int?
      && "bid" in r.attrs && r.attrs["bid"] == Int(TruncDiv(Attr(rec, "bid").i, 10000))
      && "context_bid" in r.attrs && r.attrs["context_bid"] == Int(TruncDiv(Attr(rec, "context_bid").i, 10000))
  {
    KeywordFields();
    KeywordBidsAsWrittenFor(KeywordModel, rec, exclude);
    KeywordSerializeOf(rec, exclude);
    KeywordDeserializeOf(KeywordRenamed(Serialize(KeywordModel, rec, exclude, false)).value);
  }

  /** Every bid below 10 000 kopecks (100 roubles), 100 kopecks say, reads back as 0 through
      the payload `Keyword.serialize` writes. */
  lemma KeywordBidLost(rec: map<string, Value>, exclude: set<string>)
    requires KeywordSendable(KeywordModel, rec, exclude)
    requires Attr(rec, "bid").Int? && 0 < Attr(rec, "bid").i < 10000
    ensures KeywordSerialize(rec, exclude, false).Ok?
    ensures KeywordDeserialize(KeywordSerialize(rec, exclude, false).value).Ok?
    ensures var r := KeywordDeserialize(KeywordSerialize(rec, exclude, false).value).value;
      "bid" in r.attrs && r.attrs["bid"] == Int(0) && r.attrs["bid"] != Attr(rec, "bid")
  {
    KeywordBidsAsWritten(rec, exclude);
    BelowOneUnit(Attr(rec, "bid").i);
  }
  // ---------------------------------------------------------------- TextAd

  /** `data.update(data[k]); data.pop(k)`: the keys of the object nested under `k` lifted into
      the outer object, which then loses `k`. A missing `k` raises a KeyError, a nested value
      that is not an object a TypeError. */
  function Unnest(data: Dict, k: string): (r: Result<Dict, CodecError>)
    ensures !HasKey(data, k) ==> r == Err(KeyError(k))
    ensures HasKey(data, k) ==> (r.Ok? <==> Lookup(data, k).value.Obj?)
    ensures HasKey(data, k) && !Lookup(data, k).value.Obj? ==> r == Err(TypeError)
  {
    var inner :- Get(data, k);
    if inner.Obj? then Ok(Pop(UpdateWith(data, inner.entries), k)) else Err(TypeError)
  }

  /** `{outer: s}`, then `a` and `b` popped out of `s` into the outer object when `s` has them
      (the nested object is the same dictionary, so it loses them too). */
  function Nest(s: Dict, outer: string, a: string, b: string): Dict {
    var w := [(outer, Obj(Pop(Pop(s, a), b)))];
    var w1 := if HasKey(s, a) then Put(w, a, Lookup(s, a).value) else w;
    if HasKey(s, b) then Put(w1, b, Lookup(s, b).value) else w1
  }

  /** `TextAd.deserialize`'s own step: the fields nested under `TextAd` lifted to the top. */
  function TextAdInput(data: Dict): Result<Dict, CodecError> {
    Unnest(data, TextAdKey)
  }

  /** `TextAd.deserialize`. */
  function TextAdDeserialize(data: Dict): Result<Decoded, CodecError> {
    var d :- TextAdInput(data);
    Deserialize(TextAdModel, d)
  }

  /** `TextAd.serialize`: the ad's fields nested under `TextAd`, with `AdGroupId` and `Id`
      moved to the top. */
  function TextAdSerialize(rec: map<string, Value>, exclude: set<string>, includeNull: bool): Dict {
    Nest(Serialize(TextAdModel, rec, exclude, includeNull), TextAdKey, AdGroupIdKey, IdKey)
  }

  /** Popping two keys loses those two and keeps the rest. */
  lemma PopPopLookups(s: Dict, a: string, b: string)
    ensures forall k :: Lookup(Pop(Pop(s, a), b), k) == if k == a || k == b then None else Lookup(s, k)
    ensures DistinctKeys(s) ==> DistinctKeys(Pop(Pop(s, a), b))
  {
    forall k ensures Lookup(Pop(Pop(s, a), b), k) == if k == a || k == b then None else Lookup(s, k) {
      LookupPop(s, a, k);
      LookupPop(Pop(s, a), b, k);
    }
    if DistinctKeys(s) {
      PopDistinct(s, a);
      PopDistinct(Pop(s, a), b);
    }
  }

  /** The nested form has the nested object under `outer`, `a` and `b` at the top as `s` held
      them, and no other key. */
  lemma NestLookups(s: Dict, outer: string, a: string, b: string)
    requires outer != a && outer != b && a != b
    ensures forall k :: (Lookup(Nest(s, outer, a, b), k) ==
      if k == outer then Some(Obj(Pop(Pop(s, a), b))) else if k == a || k == b then Lookup(s, k) else None)
    ensures DistinctKeys(Nest(s, outer, a, b))
  {
    var w := [(outer, Obj(Pop(Pop(s, a), b)))];
    var w1 := if HasKey(s, a) then Put(w, a, Lookup(s, a).value) else w;
    forall k ensures Lookup(w1, k) == if k == outer then Some(Obj(Pop(Pop(s, a), b))) else if k == a then Lookup(s, k) else None {
      if HasKey(s, a) { LookupPut(w, a, Lookup(s, a).value, k); }
    }
    forall k ensures (Lookup(Nest(s, outer, a, b), k) ==
      if k == outer then Some(Obj(Pop(Pop(s, a), b))) else if k == a || k == b then Lookup(s, k) else None)
    {
      if HasKey(s, b) { LookupPut(w1, b, Lookup(s, b).value, k); }
    }
    if HasKey(s, a) { PutDistinct(w, a, Lookup(s, a).value); }
    if HasKey(s, b) { PutDistinct(w1, b, Lookup(s, b).value); }
  }

  /** What `Unnest` produces: no `k`, the nested object's keys at their nested values, and
      every other key as it was. */
  lemma UnnestLookups(data: Dict, k: string)
    requires Unnest(data, k).Ok? && DistinctKeys(Lookup(data, k).value.entries)
    ensures var inner := Lookup(data, k).value.entries;
      forall k' :: (Lookup(Unnest(data, k).value, k') ==
        if k' == k then None else if HasKey(inner, k') then Lookup(inner, k') else Lookup(data, k'))
    ensures DistinctKeys(data) ==> DistinctKeys(Unnest(data, k).value)
  {
    var inner := Lookup(data, k).value.entries;
    var u := UpdateWith(data, inner);
    forall k' ensures (Lookup(Pop(u, k), k') ==
      if k' == k then None else if HasKey(inner, k') then Lookup(inner, k') else Lookup(data, k'))
    {
      LookupUpdateWith(data, inner, k');
      LookupPop(u, k, k');
    }
    if DistinctKeys(data) {
      UpdateWithDistinct(data, inner);
      PopDistinct(u, k);
    }
  }

  /** `Unnest` undoes `Nest`: every key of the original holds its value again, and no other. */
  lemma UnnestNest(s: Dict, outer: string, a: string, b: string)
    requires DistinctKeys(s) && !HasKey(s, outer)
    requires outer != a && outer != b && a != b
    ensures Unnest(Nest(s, outer, a, b), outer).Ok?
    ensures DistinctKeys(Unnest(Nest(s, outer, a, b), outer).value)
    ensures forall k :: Lookup(Unnest(Nest(s, outer, a, b), outer).value, k) == Lookup(s, k)
  {
    var n := Nest(s, outer, a, b);
    var inner := Pop(Pop(s, a), b);
    NestLookups(s, outer, a, b);
    PopPopLookups(s, a, b);
    assert Lookup(n, outer) == Some(Obj(inner));
    UnnestLookups(n, outer);
    forall k ensures Lookup(Unnest(n, outer).value, k) == Lookup(s, k) {
      if k != outer && !HasKey(inner, k) {
        assert Lookup(inner, k) == None;
      }
    }
  }

  /** Distinct keys that hold what a camel-keyed object holds are camel keys. */
  lemma SameLookupsCamelKeys(a: Dict, b: Dict)
    requires DistinctKeys(a) && CamelKeys(b)
    requires forall k :: Lookup(a, k) == Lookup(b, k)
    ensures CamelKeys(a)
  {
    forall k ensures HasKey(a, k) <==> HasKey(b, k) {
      assert Lookup(a, k) == Lookup(b, k);
    }
  }

  /** For any model with no attribute named by the wrapping key `tk`: deserializing the
      nested form of what the mixin wrote gives back the record's non-empty, non-excluded
      attributes. */
  lemma NestedRoundTrip(m: Model, rec: map<string, Value>, exclude: set<string>, tk: string, ak: string, ik: string)
    requires WellFormed(m) && Conforming(m, rec)
    requires Underscore(tk) !in FieldNames(m) && tk != ak && tk != ik && ak != ik
    ensures Unnest(Nest(Serialize(m, rec, exclude, false), tk, ak, ik), tk).Ok?
    ensures var kept := Kept(m.fields, rec, exclude);
      Deserialize(m, Unnest(Nest(Serialize(m, rec, exclude, false), tk, ak, ik), tk).value)
        == Ok(Decoded(Build(m, kept), UpdatedFields(m, kept)))
  {
    var s := Serialize(m, rec, exclude, false);
    SerializeKeys(m, rec, exclude, false);
    UnnestNest(s, tk, ak, ik);
    var d := Unnest(Nest(s, tk, ak, ik), tk).value;
    SameLookupsCamelKeys(d, s);
    SerializeRoundTrip(m, rec, exclude);
    KwargsSameLookups(m, d, s);
  }

  /** A model read through `Nest`/`Unnest` with the wrapping key `tk`, which names no
      attribute, and the two lifted keys `ak` and `ik`, the camelized attributes `an` and `iname`. */
  ghost predicate NestShaped(m: Model, tk: string, an: string, ak: string, iname: string, ik: string) {
    WellFormed(m) && Underscore(tk) !in FieldNames(m)
    && an in FieldNames(m) && iname in FieldNames(m) && SnakeName(an) && SnakeName(iname)
    && Camelize(an) == ak && Camelize(iname) == ik && tk != ak && tk != ik && ak != ik
  }

  /** For any nest-shaped model: the nested form holds the two lifted attributes at the top,
      each exactly when the mixin wrote it, everything else the mixin wrote under `tk`, and no
      other key. */
  lemma NestedShape(m: Model, rec: map<string, Value>, exclude: set<string>, includeNull: bool,
                    tk: string, an: string, ak: string, iname: string, ik: string)
    requires NestShaped(m, tk, an, ak, iname, ik)
    ensures var p := Nest(Serialize(m, rec, exclude, includeNull), tk, ak, ik);
      Lookup(p, ak) == (if an !in exclude && (includeNull || Truthy(Attr(rec, an))) then Some(Attr(rec, an)) else None)
      && Lookup(p, ik) == (if iname !in exclude && (includeNull || Truthy(Attr(rec, iname))) then Some(Attr(rec, iname)) else None)
    ensures var s := Serialize(m, rec, exclude, includeNull);
      var p := Nest(s, tk, ak, ik);
      Lookup(p, tk) == Some(Obj(Pop(Pop(s, ak), ik)))
      && (forall k :: Lookup(Pop(Pop(s, ak), ik), k) == if k == ak || k == ik then None else Lookup(s, k))
      && (forall k :: HasKey(p, k) ==> k == tk || k == ak || k == ik)
  {
    var s := Serialize(m, rec, exclude, includeNull);
    NestLookups(s, tk, ak, ik);
    PopPopLookups(s, ak, ik);
    var p := Nest(s, tk, ak, ik);
    forall k | HasKey(p, k) ensures k == tk || k == ak || k == ik {
      assert Lookup(p, k).Some?;
    }
    LiftedLookup(m, rec, exclude, includeNull, tk, ak, ik, an, ak);
    LiftedLookup(m, rec, exclude, includeNull, tk, ak, ik, iname, ik);
  }

  /** A lifted attribute `n` of the nested form, under its key `k`, holds what the mixin wrote
      for it. */
  lemma LiftedLookup(m: Model, rec: map<string, Value>, exclude: set<string>, includeNull: bool,
                     tk: string, ak: string, ik: string, n: string, k: string)
    requires WellFormed(m) && n in FieldNames(m) && SnakeName(n) && Camelize(n) == k
    requires tk != ak && tk != ik && ak != ik && (k == ak || k == ik)
    ensures Lookup(Nest(Serialize(m, rec, exclude, includeNull), tk, ak, ik), k)
      == if n !in exclude && (includeNull || Truthy(Attr(rec, n))) then Some(Attr(rec, n)) else None
  {
    NestLookups(Serialize(m, rec, exclude, includeNull), tk, ak, ik);
    SerializeFieldsLookup(m.fields, rec, exclude, includeNull, n);
  }

  /** An ad is nest-shaped with `TextAd` around it and `ad_group_id` and `id` lifted. */
  lemma TextAdFields()
    ensures NestShaped(TextAdModel, TextAdKey, "ad_group_id", AdGroupIdKey, "id", IdKey)
  {
    TextAdNoWrapperField();
    TextAdKeyName();
    TextAdLiftedFields();
    AdGroupIdSnake();
    IdSnake();
    TextAdKeysDiffer();
    TextAdLiftedKeys();
  }

  lemma TextAdLiftedKeys()
    ensures Camelize("ad_group_id") == AdGroupIdKey && Camelize("id") == IdKey
  {
  }

  lemma TextAdNoWrapperField()
    ensures WellFormed(TextAdModel) && "text_ad" !in FieldNames(TextAdModel)
  {
    TextAdModelWellFormed();
    TextAdApiOnlyNames();
    assert "text_ad" in TextAdApiOnly;
  }

  lemma TextAdLiftedFields()
    ensures "ad_group_id" in FieldNames(TextAdModel) && "id" in FieldNames(TextAdModel)
  {
    assert TextAdModel.fields[0].attname == "id" && TextAdModel.fields[1].attname == "ad_group_id";
  }

  lemma TextAdKeysDiffer()
    ensures TextAdKey != AdGroupIdKey && TextAdKey != IdKey && AdGroupIdKey != IdKey
  {
    TextAdKeyName();
    AdGroupIdKeyName();
    IdKeyName();
  }

  /** `TextAd.deserialize`, stated on `Unnest`. */
  lemma TextAdDeserializeOf(data: Dict)
    requires TextAdInput(data).Ok?
    ensures TextAdDeserialize(data) == Deserialize(TextAdModel, Unnest(data, TextAdKey).value)
  {
  }

  /** `TextAd.serialize`, stated on `Nest`. */
  lemma TextAdSerializeOf(rec: map<string, Value>, exclude: set<string>, includeNull: bool)
    ensures TextAdSerialize(rec, exclude, includeNull)
      == Nest(Serialize(TextAdModel, rec, exclude, includeNull), TextAdKey, AdGroupIdKey, IdKey)
  {
  }

  /** `TextAd.deserialize` raises a KeyError without `TextAd` and a TypeError when it is not an
      object; otherwise the mixin reads the nested fields in place of the outer ones. */
  lemma TextAdInputErrors(data: Dict)
    ensures !HasKey(data, TextAdKey) ==> TextAdDeserialize(data) == Err(KeyError(TextAdKey))
    ensures HasKey(data, TextAdKey) && !Lookup(data, TextAdKey).value.Obj? ==> TextAdDeserialize(data) == Err(TypeError)
    ensures TextAdInput(data).Ok? && DistinctKeys(Lookup(data, TextAdKey).value.entries) ==>
      var inner := Lookup(data, TextAdKey).value.entries;
      forall k :: (Lookup(TextAdInput(data).value, k) ==
        if k == TextAdKey then None else if HasKey(inner, k) then Lookup(inner, k) else Lookup(data, k))
  {
    if TextAdInput(data).Ok? && DistinctKeys(Lookup(data, TextAdKey).value.entries) {
      UnnestLookups(data, TextAdKey);
    }
  }

  /** `TextAd.serialize` puts the group and the ad's id at the top, each exactly when the
      mixin wrote it, and everything else the mixin wrote under `TextAd`. */
  lemma TextAdSerializeShape(rec: map<string, Value>, exclude: set<string>, includeNull: bool)
    ensures var p := TextAdSerialize(rec, exclude, includeNull);
      Lookup(p, AdGroupIdKey) == (if "ad_group_id" !in exclude && (includeNull || Truthy(Attr(rec, "ad_group_id")))
        then Some(Attr(rec, "ad_group_id")) else None)
      && Lookup(p, IdKey) == (if "id" !in exclude && (includeNull || Truthy(Attr(rec, "id"))) then Some(Attr(rec, "id")) else None)
    ensures var p := TextAdSerialize(rec, exclude, includeNull);
      var s := Serialize(TextAdModel, rec, exclude, includeNull);
      Lookup(p, TextAdKey) == Some(Obj(Pop(Pop(s, AdGroupIdKey), IdKey)))
      && (forall k :: HasKey(p, k) ==> k == TextAdKey || k == AdGroupIdKey || k == IdKey)
  {
    TextAdNestedShape(rec, exclude, includeNull);
    TextAdSerializeOf(rec, exclude, includeNull);
  }

  lemma TextAdNestedShape(rec: map<string, Value>, exclude: set<string>, includeNull: bool)
    ensures var p := Nest(Serialize(TextAdModel, rec, exclude, includeNull), TextAdKey, AdGroupIdKey, IdKey);
      Lookup(p, AdGroupIdKey) == (if "ad_group_id" !in exclude && (includeNull || Truthy(Attr(rec, "ad_group_id")))
        then Some(Attr(rec, "ad_group_id")) else None)
      && Lookup(p, IdKey) == (if "id" !in exclude && (includeNull || Truthy(Attr(rec, "id"))) then Some(Attr(rec, "id")) else None)
    ensures var s := Serialize(TextAdModel, rec, exclude, includeNull);
      var p := Nest(s, TextAdKey, AdGroupIdKey, IdKey);
      Lookup(p, TextAdKey) == Some(Obj(Pop(Pop(s, AdGroupIdKey), IdKey)))
      && (forall k :: HasKey(p, k) ==> k == TextAdKey || k == AdGroupIdKey || k == IdKey)
  {
    TextAdFields();
    NestedShape(TextAdModel, rec, exclude, includeNull, TextAdKey, "ad_group_id", AdGroupIdKey, "id", IdKey);
  }

  /** `TextAd`: deserializing what `serialize` writes gives back the ad's non-empty,
      non-excluded attributes. */
  lemma TextAdRoundTrip(rec: map<string, Value>, exclude: set<string>)
    requires Conforming(TextAdModel, rec)
    ensures TextAdInput(TextAdSerialize(rec, exclude, false)).Ok?
    ensures var kept := Kept(TextAdModel.fields, rec, exclude);
      TextAdDeserialize(TextAdSerialize(rec, exclude, false)) == Ok(Decoded(Build(TextAdModel, kept), UpdatedFields(TextAdModel, kept)))
  {
    TextAdNestedRoundTrip(rec, exclude);
    TextAdSerializeOf(rec, exclude, false);
    TextAdDeserializeOf(TextAdSerialize(rec, exclude, false));
  }

  lemma TextAdNestedRoundTrip(rec: map<string, Value>, exclude: set<string>)
    requires Conforming(TextAdModel, rec)
    ensures Unnest(Nest(Serialize(TextAdModel, rec, exclude, false), TextAdKey, AdGroupIdKey, IdKey), TextAdKey).Ok?
    ensures var kept := Kept(TextAdModel.fields, rec, exclude);
      Deserialize(TextAdModel, Unnest(Nest(Serialize(TextAdModel, rec, exclude, false), TextAdKey, AdGroupIdKey, IdKey), TextAdKey).value)
        == Ok(Decoded(Build(TextAdModel, kept), UpdatedFields(TextAdModel, kept)))
  {
    TextAdFields();
    NestedRoundTrip(TextAdModel, rec, exclude, TextAdKey, AdGroupIdKey, IdKey);
  }

  // ---------------------------------------------------------------- Campaign, TextCampaign

  /** Three keys popped in order, each raising a KeyError when absent, then the value of a
      fourth key taken out as well. */
  function PopThreeTake(data: Dict, a: string, b: string, c: string, t: string): Result<(Dict, Value), CodecError> {
    var d1 :- PopKey(data, a);
    var d2 :- PopKey(d1, b);
    var d3 :- PopKey(d2, c);
    var v :- Get(d3, t);
    Ok((Pop(d3, t), v))
  }

  /** `Campaign.deserialize`'s own first steps: `BlockedIps`, `ExcludedSites`,
      `NegativeKeywords` and `DailyBudget` popped, the budget kept. */
  function CampaignInput(data: Dict): Result<(Dict, Value), CodecError> {
    PopThreeTake(data, BlockedIpsKey, ExcludedSitesKey, NegativeKeywordsKey, DailyBudgetKey)
  }

  /** `daily_budget['Amount'] / 10_000` and `daily_budget['Mode']`: the amount the API sends
      in millionths of a ruble becomes kopecks. */
  function BudgetOf(budget: Value): (r: Result<(Value, Value), CodecError>)
    ensures !budget.Obj? ==> r == Err(TypeError)
    ensures budget.Obj? && !HasKey(budget.entries, AmountKey) ==> r == Err(KeyError(AmountKey))
    ensures budget.Obj? && HasKey(budget.entries, AmountKey) && Lookup(budget.entries, AmountKey).value.Int? ==>
      r == (if HasKey(budget.entries, ModeKey)
            then Ok((Quot(Lookup(budget.entries, AmountKey).value.i, 10000), Lookup(budget.entries, ModeKey).value))
            else Err(KeyError(ModeKey)))
  {
    if !budget.Obj? then Err(TypeError)
    else
      var amount :- Get(budget.entries, AmountKey);
      var q :- Div10000(amount);
      var mode :- Get(budget.entries, ModeKey);
      Ok((q, mode))
  }

  /** The campaign's daily budget set from a truthy budget object, and both budget attributes
      marked as updated; an empty budget leaves the campaign as the mixin built it. */
  function WithBudget(dec: Decoded, budget: Value): (r: Result<Decoded, CodecError>)
    ensures !Truthy(budget) ==> r == Ok(dec)
    ensures Truthy(budget) ==> (r.Ok? <==> BudgetOf(budget).Ok?)
    ensures Truthy(budget) && r.Ok? ==>
      r.value.attrs.Keys == dec.attrs.Keys + {"daily_budget_amount", "daily_budget_mode"}
      && r.value.attrs["daily_budget_amount"] == BudgetOf(budget).value.0
      && r.value.attrs["daily_budget_mode"] == BudgetOf(budget).value.1
      && (forall n :: n in dec.attrs && n != "daily_budget_amount" && n != "daily_budget_mode" ==> r.value.attrs[n] == dec.attrs[n])
      && r.value.updated == dec.updated + {"daily_budget_amount", "daily_budget_mode"}
  {
    if !Truthy(budget) then Ok(dec)
    else
      var p :- BudgetOf(budget);
      Ok(Decoded(dec.attrs["daily_budget_amount" := p.0]["daily_budget_mode" := p.1],
                 dec.updated + {"daily_budget_amount", "daily_budget_mode"}))
  }

  /** `Campaign.deserialize` as the class `m` inherits it (`TextCampaign` does). */
  function CampaignDeserialize(m: Model, data: Dict): Result<Decoded, CodecError> {
    var p :- CampaignInput(data);
    var dec :- Deserialize(m, p.0);
    WithBudget(dec, p.1)
  }

  /** Models read by `Campaign.deserialize`: none of the four popped keys names an attribute,
      and the start date is an attribute. */
  predicate CampaignShaped(m: Model) {
    WellFormed(m) && "start_date" in FieldNames(m)
    && "blocked_ips" !in FieldNames(m) && "excluded_sites" !in FieldNames(m)
    && "negative_keywords" !in FieldNames(m) && "daily_budget" !in FieldNames(m)
  }

  /** The attribute name of a field is one of the model's field names. */
  lemma FieldNamed(m: Model, i: nat)
    requires i < |m.fields|
    ensures m.fields[i].attname in FieldNames(m)
  {
  }

  lemma CampaignModelShaped()
    ensures CampaignShaped(CampaignModel)
  {
    CampaignModelWellFormed();
    CampaignApiOnlyNames();
    CampaignStartDate();
    assert "blocked_ips" in CampaignApiOnly && "excluded_sites" in CampaignApiOnly;
    assert "negative_keywords" in CampaignApiOnly && "daily_budget" in CampaignApiOnly;
  }

  lemma CampaignStartDate()
    ensures "start_date" in FieldNames(CampaignModel)
  {
    var f := CampaignModel.fields;
    assert f[6].attname == "start_date";
    FieldNamed(CampaignModel, 6);
  }

  lemma TextCampaignModelShaped()
    ensures CampaignShaped(TextCampaignModel) && CampaignShaped(TextCampaignAsWritten)
  {
    TextCampaignModelOnlyShaped();
    assert TextCampaignAsWritten.fields == TextCampaignModel.fields;
  }

  lemma TextCampaignModelOnlyShaped()
    ensures CampaignShaped(TextCampaignModel)
  {
    TextCampaignModelWellFormed();
    TextCampaignApiOnlyNames();
    TextCampaignStartDate();
    assert "blocked_ips" in TextCampaignApiOnly && "excluded_sites" in TextCampaignApiOnly;
    assert "negative_keywords" in TextCampaignApiOnly && "daily_budget" in TextCampaignApiOnly;
  }

  lemma TextCampaignStartDate()
    ensures "start_date" in FieldNames(TextCampaignModel)
  {
    var f := TextCampaignModel.fields;
    assert f[6].attname == "start_date";
    FieldNamed(TextCampaignModel, 6);
  }

  /** The three pops fail in order, each with a KeyError for the first absent key, and the
      taken key fails last; when all four are present the result has none of them, every
      other key as it was, and the value of the taken key. */
  lemma PopThreeTakeLookups(data: Dict, a: string, b: string, c: string, t: string)
    requires a != b && a != c && a != t && b != c && b != t && c != t
    ensures !HasKey(data, a) ==> PopThreeTake(data, a, b, c, t) == Err(KeyError(a))
    ensures HasKey(data, a) && !HasKey(data, b) ==> PopThreeTake(data, a, b, c, t) == Err(KeyError(b))
    ensures HasKey(data, a) && HasKey(data, b) && !HasKey(data, c) ==> PopThreeTake(data, a, b, c, t) == Err(KeyError(c))
    ensures HasKey(data, a) && HasKey(data, b) && HasKey(data, c) && !HasKey(data, t) ==>
      PopThreeTake(data, a, b, c, t) == Err(KeyError(t))
    ensures PopThreeTake(data, a, b, c, t).Ok? <==> HasKey(data, a) && HasKey(data, b) && HasKey(data, c) && HasKey(data, t)
    ensures PopThreeTake(data, a, b, c, t).Ok? ==>
      var r := PopThreeTake(data, a, b, c, t).value;
      r.0 == Pop(Pop(Pop(Pop(data, a), b), c), t) && Some(r.1) == Lookup(data, t)
      && forall k :: Lookup(r.0, k) == if k == a || k == b || k == c || k == t then None else Lookup(data, k)
  {
    var d1 := Pop(data, a);
    var d2 := Pop(d1, b);
    var d3 := Pop(d2, c);
    LookupPop(data, a, b);
    LookupPop(data, a, c);
    LookupPop(data, a, t);
    LookupPop(d1, b, c);
    LookupPop(d1, b, t);
    LookupPop(d2, c, t);
    assert HasKey(d1, b) <==> HasKey(data, b);
    assert HasKey(d2, c) <==> HasKey(data, c);
    assert HasKey(d3, t) <==> HasKey(data, t);
    if HasKey(data, a) && HasKey(data, b) && HasKey(data, c) && HasKey(data, t) {
      assert PopThreeTake(data, a, b, c, t) == Ok((Pop(d3, t), Lookup(d3, t).value));
      forall k ensures Lookup(Pop(d3, t), k) == if k == a || k == b || k == c || k == t then None else Lookup(data, k) {
        LookupPop(data, a, k);
        LookupPop(d1, b, k);
        LookupPop(d2, c, k);
        LookupPop(d3, t, k);
      }
    }
  }

  /** The four keys `Campaign.deserialize` pops are distinct and name the API-only attributes. */
  lemma CampaignKeysDiffer()
    ensures Underscore(BlockedIpsKey) == "blocked_ips" && Underscore(ExcludedSitesKey) == "excluded_sites"
    ensures Underscore(NegativeKeywordsKey) == "negative_keywords" && Underscore(DailyBudgetKey) == "daily_budget"
  {
    BlockedIpsKeyName();
    ExcludedSitesKeyName();
    NegativeKeywordsKeyName();
    DailyBudgetKeyName();
  }

  /** `Campaign.deserialize` fails with a KeyError for the first of `BlockedIps`,
      `ExcludedSites`, `NegativeKeywords` and `DailyBudget` that is absent. */
  lemma CampaignInputErrors(data: Dict)
    ensures !HasKey(data, BlockedIpsKey) ==> CampaignInput(data) == Err(KeyError(BlockedIpsKey))
    ensures HasKey(data, BlockedIpsKey) && !HasKey(data, ExcludedSitesKey) ==>
      CampaignInput(data) == Err(KeyError(ExcludedSitesKey))
    ensures HasKey(data, BlockedIpsKey) && HasKey(data, ExcludedSitesKey) && !HasKey(data, NegativeKeywordsKey) ==>
      CampaignInput(data) == Err(KeyError(NegativeKeywordsKey))
    ensures (HasKey(data, BlockedIpsKey) && HasKey(data, ExcludedSitesKey) && HasKey(data, NegativeKeywordsKey)
             && !HasKey(data, DailyBudgetKey)) ==> CampaignInput(data) == Err(KeyError(DailyBudgetKey))
    ensures CampaignInput(data).Ok? <==>
      HasKey(data, BlockedIpsKey) && HasKey(data, ExcludedSitesKey) && HasKey(data, NegativeKeywordsKey) && HasKey(data, DailyBudgetKey)
  {
    CampaignKeysDiffer();
    PopThreeTakeLookups(data, BlockedIpsKey, ExcludedSitesKey, NegativeKeywordsKey, DailyBudgetKey);
  }

  /** Popping keys that name no attribute changes nothing the mixin reads. */
  lemma PopsUnnamed(m: Model, data: Dict, a: string, b: string, c: string, t: string)
    requires Underscore(a) !in FieldNames(m) && Underscore(b) !in FieldNames(m)
    requires Underscore(c) !in FieldNames(m) && Underscore(t) !in FieldNames(m)
    ensures Deserialize(m, Pop(Pop(Pop(Pop(data, a), b), c), t)) == Deserialize(m, data)
  {
    KwargsFromPopUnnamed(m, map[], data, a);
    KwargsFromPopUnnamed(m, map[], Pop(data, a), b);
    KwargsFromPopUnnamed(m, map[], Pop(Pop(data, a), b), c);
    KwargsFromPopUnnamed(m, map[], Pop(Pop(Pop(data, a), b), c), t);
  }

  /** Reading after the pops reads what the mixin reads from the whole object when none of the
      popped keys names an attribute. */
  lemma PoppedRead(m: Model, data: Dict, a: string, b: string, c: string, t: string)
    requires Underscore(a) !in FieldNames(m) && Underscore(b) !in FieldNames(m)
    requires Underscore(c) !in FieldNames(m) && Underscore(t) !in FieldNames(m)
    requires PopThreeTake(data, a, b, c, t).Ok?
    ensures Deserialize(m, PopThreeTake(data, a, b, c, t).value.0) == Deserialize(m, data)
  {
    assert PopThreeTake(data, a, b, c, t).value.0 == Pop(Pop(Pop(Pop(data, a), b), c), t);
    PopsUnnamed(m, data, a, b, c, t);
  }

  /** With all four keys present, `Campaign.deserialize` reads what the mixin reads from the
      whole object (the popped keys name no attribute) and fails with the mixin's error first;
      a truthy `DailyBudget` then sets the budget attributes from its `Amount` and `Mode`. */
  lemma CampaignDeserializeMeaning(m: Model, data: Dict)
    requires CampaignShaped(m) && CampaignInput(data).Ok?
    ensures Deserialize(m, data).Err? ==> CampaignDeserialize(m, data) == Deserialize(m, data)
    ensures Deserialize(m, data).Ok? ==>
      CampaignDeserialize(m, data) == WithBudget(Deserialize(m, data).value, CampaignInput(data).value.1)
  {
    CampaignKeysDiffer();
    PoppedRead(m, data, BlockedIpsKey, ExcludedSitesKey, NegativeKeywordsKey, DailyBudgetKey);
  }

  /** The budget `Campaign.deserialize` uses is the object's `DailyBudget`. */
  lemma CampaignInputBudget(data: Dict)
    requires CampaignInput(data).Ok?
    ensures Lookup(data, DailyBudgetKey) == Some(CampaignInput(data).value.1)
  {
    CampaignKeysDiffer();
    PopThreeTakeLookups(data, BlockedIpsKey, ExcludedSitesKey, NegativeKeywordsKey, DailyBudgetKey);
  }

  /** `value.isoformat()` on the start date `serialize` wrote; other values have no such
      method. */
  function IsoDate(v: Value): (r: Result<Value, CodecError>)
    ensures r.Ok? <==> v.Date?
    ensures r.Ok? ==> r.value.Str?
    ensures r.Err? ==> r.error == AttributeError
  {
    if v.Date? then Ok(Str(IsoFormat(v.day))) else Err(AttributeError)
  }

  /** The value at `k` replaced by its ISO form when there is one. */
  function IsoAt(s: Dict, k: string): Result<Dict, CodecError> {
    match Lookup(s, k)
    case None => Ok(s)
    case Some(v) =>
      var iso :- IsoDate(v);
      Ok(Put(s, k, iso))
  }

  /** `IsoAt` fails exactly when the value at `k` is not a date; otherwise that value is in ISO
      form and every other key is unchanged. */
  lemma IsoAtLookups(s: Dict, k: string)
    ensures IsoAt(s, k).Ok? <==> (Lookup(s, k).Some? ==> Lookup(s, k).value.Date?)
    ensures IsoAt(s, k).Err? ==> IsoAt(s, k).error == AttributeError
    ensures IsoAt(s, k).Ok? ==> forall k' :: (Lookup(IsoAt(s, k).value, k') ==
      if k' == k && Lookup(s, k).Some? then Some(Str(IsoFormat(Lookup(s, k).value.day))) else Lookup(s, k'))
  {
    if Lookup(s, k).Some? && Lookup(s, k).value.Date? {
      var v := Str(IsoFormat(Lookup(s, k).value.day));
      forall k' ensures Lookup(Put(s, k, v), k') == if k' == k then Some(v) else Lookup(s, k') {
        LookupPut(s, k, v, k');
      }
    }
  }

  /** `Campaign.serialize` as the class `m` inherits it: the mixin's object with a written
      start date in ISO form. */
  function CampaignSerialize(m: Model, rec: map<string, Value>, exclude: set<string>, includeNull: bool): Result<Dict, CodecError> {
    IsoAt(Serialize(m, rec, exclude, includeNull), StartDateKey)
  }

  /** The fixed bidding strategy every serialized text campaign carries: highest position on
      search, serving off in the networks. */
  const TextCampaignSettings: Value :=
    Obj([(BiddingStrategyKey, Obj([
      (SearchKey, Obj([(BiddingStrategyTypeKey, Str("HIGHEST_POSITION"))])),
      (NetworkKey, Obj([(BiddingStrategyTypeKey, Str("SERVING_OFF"))]))]))])

  /** `TextCampaign.serialize`. */
  function TextCampaignSerialize(m: Model, rec: map<string, Value>, exclude: set<string>, includeNull: bool): Result<Dict, CodecError> {
    var s :- CampaignSerialize(m, rec, exclude, includeNull);
    Ok(Put(s, TextCampaignKey, TextCampaignSettings))
  }

  /** Whether `serialize` writes the start date. */
  predicate StartDateWritten(rec: map<string, Value>, exclude: set<string>, includeNull: bool) {
    "start_date" !in exclude && (includeNull || Truthy(Attr(rec, "start_date")))
  }

  /** The start date `serialize` writes is the record's; no other attribute writes its key. */
  lemma StartDateSerialized(m: Model, rec: map<string, Value>, exclude: set<string>, includeNull: bool)
    requires CampaignShaped(m)
    ensures Lookup(Serialize(m, rec, exclude, includeNull), StartDateKey) ==
      if StartDateWritten(rec, exclude, includeNull) then Some(Attr(rec, "start_date")) else None
  {
    StartDateKeyName();
    SerializeFieldsLookup(m.fields, rec, exclude, includeNull, "start_date");
    assert Camelize("start_date") == StartDateKey;
  }

  /** `Campaign.serialize` fails with an AttributeError exactly when it writes a start date that
      is not a date; otherwise the start date is in ISO form and every other key is as the
      mixin wrote it. */
  lemma CampaignSerializeMeaning(m: Model, rec: map<string, Value>, exclude: set<string>, includeNull: bool)
    requires CampaignShaped(m)
    ensures var r := CampaignSerialize(m, rec, exclude, includeNull);
      (r.Ok? <==> !StartDateWritten(rec, exclude, includeNull) || Attr(rec, "start_date").Date?)
      && (r.Err? ==> r.error == AttributeError)
    ensures var r := CampaignSerialize(m, rec, exclude, includeNull);
      var s := Serialize(m, rec, exclude, includeNull);
      r.Ok? ==>
        (Lookup(r.value, StartDateKey) ==
           (if StartDateWritten(rec, exclude, includeNull) then Some(Str(IsoFormat(Attr(rec, "start_date").day))) else None))
        && forall k :: k != StartDateKey ==> Lookup(r.value, k) == Lookup(s, k)
  {
    StartDateSerialized(m, rec, exclude, includeNull);
    IsoAtLookups(Serialize(m, rec, exclude, includeNull), StartDateKey);
  }

  /** `TextCampaign.serialize` succeeds exactly when `Campaign.serialize` does and adds the
      fixed bidding strategy under `TextCampaign`, which no attribute writes. */
  lemma TextCampaignSerializeMeaning(m: Model, rec: map<string, Value>, exclude: set<string>, includeNull: bool)
    requires CampaignShaped(m) && "text_campaign" !in FieldNames(m)
    ensures var r := TextCampaignSerialize(m, rec, exclude, includeNull);
      var c := CampaignSerialize(m, rec, exclude, includeNull);
      (r.Ok? <==> c.Ok?) && (r.Err? ==> r == Err(c.error))
      && (r.Ok? ==> Lookup(r.value, TextCampaignKey) == Some(TextCampaignSettings)
                    && !HasKey(c.value, TextCampaignKey)
                    && forall k :: k != TextCampaignKey ==> Lookup(r.value, k) == Lookup(c.value, k))
  {
    var c := CampaignSerialize(m, rec, exclude, includeNull);
    if c.Ok? {
      CampaignSerializeMeaning(m, rec, exclude, includeNull);
      TextCampaignKeyName();
      StartDateKeyName();
      var s := Serialize(m, rec, exclude, includeNull);
      SerializeKeys(m, rec, exclude, includeNull);
      assert Lookup(c.value, TextCampaignKey) == Lookup(s, TextCampaignKey);
      assert !HasKey(s, TextCampaignKey);
      forall k ensures Lookup(Put(c.value, TextCampaignKey, TextCampaignSettings), k)
        == if k == TextCampaignKey then Some(TextCampaignSettings) else Lookup(c.value, k)
      {
        LookupPut(c.value, TextCampaignKey, TextCampaignSettings, k);
      }
    }
  }

  lemma TextCampaignNoSettingsField()
    ensures "text_campaign" !in FieldNames(TextCampaignModel)
  {
    TextCampaignApiOnlyNames();
    assert "text_campaign" in TextCampaignApiOnly;
  }

  /** For an attribute `n` other than the start date: the serialized text campaign holds it
      under its camelized key exactly when the mixin writes it. */
  lemma TextCampaignSentAttribute(m: Model, rec: map<string, Value>, exclude: set<string>, includeNull: bool, n: string, k: string)
    requires CampaignShaped(m) && "text_campaign" !in FieldNames(m)
    requires SnakeName(n) && Camelize(n) == k && k != TextCampaignKey && k != StartDateKey
    requires TextCampaignSerialize(m, rec, exclude, includeNull).Ok?
    ensures Lookup(TextCampaignSerialize(m, rec, exclude, includeNull).value, k) ==
      if n in FieldNames(m) && n !in exclude && (includeNull || Truthy(Attr(rec, n))) then Some(Attr(rec, n)) else None
  {
    TextCampaignSerializeMeaning(m, rec, exclude, includeNull);
    CampaignSerializeMeaning(m, rec, exclude, includeNull);
    SerializeFieldsLookup(m.fields, rec, exclude, includeNull, n);
  }

  lemma ParentKeysDiffer()
    ensures AccountIdKey != TextCampaignKey && AccountIdKey != StartDateKey
    ensures CampaignPtrIdKey != TextCampaignKey && CampaignPtrIdKey != StartDateKey
  {
    AccountIdKeyName();
    CampaignPtrIdKeyName();
    TextCampaignKeyName();
    StartDateKeyName();
  }

  lemma TextCampaignParentFields()
    ensures "account_id" in FieldNames(TextCampaignModel) && "campaign_ptr_id" in FieldNames(TextCampaignModel)
  {
    assert TextCampaignModel.fields[4].attname == "account_id";
    assert TextCampaignModel.fields[9].attname == "campaign_ptr_id";
  }

  /** Whether `serialize` writes attribute `n`. */
  predicate Written(rec: map<string, Value>, exclude: set<string>, includeNull: bool, n: string) {
    n !in exclude && (includeNull || Truthy(Attr(rec, n)))
  }

  /** A text-campaign-shaped model serializes whenever the start date is unset or a date, and
      sends the account and the parent link exactly when the mixin writes them. */
  lemma ParentKeysSent(m: Model, rec: map<string, Value>, exclude: set<string>, includeNull: bool)
    requires CampaignShaped(m) && "text_campaign" !in FieldNames(m)
    requires "account_id" in FieldNames(m) && "campaign_ptr_id" in FieldNames(m)
    ensures var r := TextCampaignSerialize(m, rec, exclude, includeNull);
      (r.Ok? <==> !StartDateWritten(rec, exclude, includeNull) || Attr(rec, "start_date").Date?)
      && (r.Ok? ==>
            Lookup(r.value, AccountIdKey) == (if Written(rec, exclude, includeNull, "account_id") then Some(Attr(rec, "account_id")) else None)
            && Lookup(r.value, CampaignPtrIdKey)
               == (if Written(rec, exclude, includeNull, "campaign_ptr_id") then Some(Attr(rec, "campaign_ptr_id")) else None))
  {
    CampaignSerializeMeaning(m, rec, exclude, includeNull);
    TextCampaignSerializeMeaning(m, rec, exclude, includeNull);
    if TextCampaignSerialize(m, rec, exclude, includeNull).Ok? {
      ParentKeysDiffer();
      AccountIdKeyName();
      CampaignPtrIdKeyName();
      TextCampaignSentAttribute(m, rec, exclude, includeNull, "account_id", AccountIdKey);
      TextCampaignSentAttribute(m, rec, exclude, includeNull, "campaign_ptr_id", CampaignPtrIdKey);
    }
  }

  /** A text campaign serialized for an update as declared: a campaign whose start date is
      unset or a date is sent with its account login and its parent link, two keys the update
      of a campaign does not take. */
  lemma TextCampaignUpdateAsWritten(rec: map<string, Value>)
    requires Truthy(Attr(rec, "account_id")) && Truthy(Attr(rec, "campaign_ptr_id"))
    requires !Truthy(Attr(rec, "start_date")) || Attr(rec, "start_date").Date?
    ensures var r := TextCampaignSerialize(TextCampaignAsWritten, rec, TextCampaignAsWritten.excludeUpdate, false);
      r.Ok? && Lookup(r.value, AccountIdKey) == Some(Attr(rec, "account_id"))
      && Lookup(r.value, CampaignPtrIdKey) == Some(Attr(rec, "campaign_ptr_id"))
  {
    TextCampaignModelShaped();
    TextCampaignNoSettingsField();
    TextCampaignParentFields();
    assert TextCampaignAsWritten.excludeUpdate == {};
    ParentKeysSent(TextCampaignAsWritten, rec, {}, false);
  }

  /** A text campaign serialized for an update with the update exclusions its add exclusions
      call for: neither the account nor the parent link is sent, and it fails only on a start
      date that is not a date. */
  lemma TextCampaignUpdateOmitsParent(rec: map<string, Value>, includeNull: bool)
    ensures var r := TextCampaignSerialize(TextCampaignModel, rec, TextCampaignModel.excludeUpdate, includeNull);
      (r.Ok? <==> !StartDateWritten(rec, TextCampaignModel.excludeUpdate, includeNull) || Attr(rec, "start_date").Date?)
      && (r.Ok? ==> !HasKey(r.value, AccountIdKey) && !HasKey(r.value, CampaignPtrIdKey))
  {
    TextCampaignModelShaped();
    TextCampaignNoSettingsField();
    TextCampaignParentFields();
    ParentKeysSent(TextCampaignModel, rec, TextCampaignModel.excludeUpdate, includeNull);
  }

  // ---------------------------------------------------------------- AdGroup

  /** Integers, and texts, as API values. */
  function IntValues(xs: seq<int>): (r: seq<Value>)
    ensures |r| == |xs| && forall i :: 0 <= i < |xs| ==> r[i] == Int(xs[i])
  {
    if xs == [] then [] else [Int(xs[0])] + IntValues(xs[1..])
  }

  function StrValues(xs: seq<string>): (r: seq<Value>)
    ensures |r| == |xs| && forall i :: 0 <= i < |xs| ==> r[i] == Str(xs[i])
  {
    if xs == [] then [] else [Str(xs[0])] + StrValues(xs[1..])
  }

  /** The negative keywords as the API's array of strings: `{"Items": [...]}`. */
  function NegativeItems(negatives: seq<string>): Value {
    ItemsOf(ItemsKey, negatives)
  }

  function ItemsOf(ik: string, texts: seq<string>): Value {
    Obj([(ik, List(StrValues(texts)))])
  }

  /** The payload `AdGroup.serialize` builds from the mixin's object `s`: the group's region
      ids under `RegionIds` and, when the group has negative keywords, their texts under
      `NegativeKeywords`. */
  function AdGroupPayload(s: Dict, regionIds: seq<int>, negatives: seq<string>): Dict {
    Payload(s, regionIds, negatives, RegionIdsKey, NegativeKeywordsKey)
  }

  function Payload(s: Dict, regionIds: seq<int>, negatives: seq<string>, rk: string, nk: string): Dict {
    var g := Put(s, rk, List(IntValues(regionIds)));
    if negatives == [] then g else Put(g, nk, NegativeItems(negatives))
  }

  /** Writing a key twice keeps the second value only. */
  lemma {:induction false} PutTwice(d: Dict, k: string, a: Value, b: Value)
    ensures Put(Put(d, k, a), k, b) == Put(d, k, b)
  {
    if d != [] && d[0].0 != k {
      PutTwice(d[1..], k, a, b);
      assert Put(d, k, a) == [d[0]] + Put(d[1..], k, a);
      assert (Put(d, k, a))[1..] == Put(d[1..], k, a);
    }
  }

  lemma StrValuesSnoc(xs: seq<string>, x: string)
    ensures StrValues(xs + [x]) == StrValues(xs) + [Str(x)]
  {
  }

  /** The object after the negative keywords `xs` were appended to a `g0` that has no
      `NegativeKeywords`. */
  function WithNegatives(g0: Dict, nk: string, ik: string, xs: seq<string>): Dict {
    if xs == [] then g0 else Put(g0, nk, ItemsOf(ik, xs))
  }

  /** One step of the loop: `setdefault` finds or creates the `Items` object, which then holds
      the texts so far, and appending `x` to it gives the object for one more text. */
  lemma NegativeStep(g0: Dict, nk: string, ik: string, negatives: seq<string>, i: nat, g1: Dict)
    requires !HasKey(g0, nk) && i < |negatives|
    requires var g := WithNegatives(g0, nk, ik, negatives[..i]); g1 == if !HasKey(g, nk) then Put(g, nk, ItemsOf(ik, [])) else g
    ensures Lookup(g1, nk).Some? && Lookup(g1, nk).value.Obj? && |Lookup(g1, nk).value.entries| == 1
    ensures Lookup(g1, nk).value.entries[0].1.List?
    ensures var items := Lookup(g1, nk).value.entries[0].1.items;
      Put(g1, nk, Obj([(ik, List(items + [Str(negatives[i])]))])) == WithNegatives(g0, nk, ik, negatives[..i + 1])
  {
    var xs := negatives[..i];
    var x := negatives[i];
    assert negatives[..i + 1] == xs + [x];
    LookupPut(g0, nk, ItemsOf(ik, xs), nk);
    LookupPut(g0, nk, ItemsOf(ik, []), nk);
    assert Lookup(g1, nk) == Some(ItemsOf(ik, xs));
    StrValuesSnoc(xs, x);
    PutTwice(g0, nk, ItemsOf(ik, xs), ItemsOf(ik, xs + [x]));
    PutTwice(g0, nk, ItemsOf(ik, []), ItemsOf(ik, xs + [x]));
  }

  /** `AdGroup.serialize`: the region ids set, then each negative keyword appended to the
      `Items` of a `NegativeKeywords` object that the first one creates. `regionIds` and
      `negatives` are what the group's regions and negative keywords hold in the store. */
  method AdGroupSerialize(rec: map<string, Value>, exclude: set<string>, includeNull: bool,
                          regionIds: seq<int>, negatives: seq<string>) returns (g: Dict)
    ensures g == AdGroupPayload(Serialize(AdGroupModel, rec, exclude, includeNull), regionIds, negatives)
  {
    var s := Serialize(AdGroupModel, rec, exclude, includeNull);
    AdGroupNoNegativesKey(s, rec, exclude, includeNull, regionIds);
    g := AppendNegatives(Put(s, RegionIdsKey, List(IntValues(regionIds))), NegativeKeywordsKey, ItemsKey, negatives);
  }

  /** The loop of `AdGroup.serialize` over the group's negative keywords, writing at `nk`:
      `setdefault` finds or creates the `{ik: []}` object and the text is appended to its list. */
  method AppendNegatives(g0: Dict, nk: string, ik: string, negatives: seq<string>) returns (g: Dict)
    requires !HasKey(g0, nk)
    ensures g == WithNegatives(g0, nk, ik, negatives)
  {
    g := g0;
    var i := 0;
    while i < |negatives|
      invariant 0 <= i <= |negatives|
      invariant g == WithNegatives(g0, nk, ik, negatives[..i])
    {
      if !HasKey(g, nk) {
        g := Put(g, nk, Obj([(ik, List([]))]));
      }
      NegativeStep(g0, nk, ik, negatives, i, g);
      var items := Lookup(g, nk).value.entries[0].1.items;
      g := Put(g, nk, Obj([(ik, List(items + [Str(negatives[i])]))]));
      i := i + 1;
    }
    assert negatives[..i] == negatives;
  }

  /** The mixin's object for a group, with its region ids, has no `NegativeKeywords`. */
  lemma AdGroupNoNegativesKey(s: Dict, rec: map<string, Value>, exclude: set<string>, includeNull: bool, regionIds: seq<int>)
    requires s == Serialize(AdGroupModel, rec, exclude, includeNull)
    ensures !HasKey(Put(s, RegionIdsKey, List(IntValues(regionIds))), NegativeKeywordsKey)
  {
    AdGroupPayloadKeys();
    AdGroupModelWellFormed();
    SerializeKeys(AdGroupModel, rec, exclude, includeNull);
    LookupPut(s, RegionIdsKey, List(IntValues(regionIds)), NegativeKeywordsKey);
  }

  lemma AdGroupPayloadKeys()
    ensures RegionIdsKey != NegativeKeywordsKey
    ensures "region_ids" !in FieldNames(AdGroupModel) && "negative_keywords" !in FieldNames(AdGroupModel)
    ensures Underscore(RegionIdsKey) == "region_ids" && Underscore(NegativeKeywordsKey) == "negative_keywords"
  {
    RegionIdsKeyName();
    NegativeKeywordsKeyName();
    AdGroupApiOnlyNames();
    assert "region_ids" in AdGroupApiOnly && "negative_keywords" in AdGroupApiOnly;
  }

  /** The payload holds the region ids under `RegionIds`, the texts as `{"Items": [...]}` under
      `NegativeKeywords` exactly when there are any, and every other key as the mixin wrote
      it; the two added keys are not keys the mixin writes. */
  lemma AdGroupPayloadLookups(s: Dict, regionIds: seq<int>, negatives: seq<string>, rk: string, nk: string)
    requires rk != nk && !HasKey(s, rk) && !HasKey(s, nk)
    ensures var g := Payload(s, regionIds, negatives, rk, nk);
      Lookup(g, rk) == Some(List(IntValues(regionIds)))
      && Lookup(g, nk) == (if negatives == [] then None else Some(NegativeItems(negatives)))
      && (forall k :: k != rk && k != nk ==> Lookup(g, k) == Lookup(s, k))
      && |g| == |s| + (if negatives == [] then 1 else 2)
  {
    var g1 := Put(s, rk, List(IntValues(regionIds)));
    forall k ensures Lookup(g1, k) == if k == rk then Some(List(IntValues(regionIds))) else Lookup(s, k) {
      LookupPut(s, rk, List(IntValues(regionIds)), k);
    }
    if negatives != [] {
      assert !HasKey(g1, nk) by { assert Lookup(g1, nk) == None; }
      forall k ensures Lookup(Put(g1, nk, NegativeItems(negatives)), k) == if k == nk then Some(NegativeItems(negatives)) else Lookup(g1, k) {
        LookupPut(g1, nk, NegativeItems(negatives), k);
      }
    }
  }

  /** `AdGroup.serialize` as a whole: the group's attributes as the mixin writes them, its
      region ids under `RegionIds`, and its negative keywords under `NegativeKeywords.Items`
      when it has any. */
  lemma AdGroupSerializeShape(rec: map<string, Value>, exclude: set<string>, includeNull: bool,
                              regionIds: seq<int>, negatives: seq<string>)
    ensures var s := Serialize(AdGroupModel, rec, exclude, includeNull);
      var g := AdGroupPayload(s, regionIds, negatives);
      Lookup(g, RegionIdsKey) == Some(List(IntValues(regionIds)))
      && Lookup(g, NegativeKeywordsKey) == (if negatives == [] then None else Some(NegativeItems(negatives)))
      && (forall k :: k != RegionIdsKey && k != NegativeKeywordsKey ==> Lookup(g, k) == Lookup(s, k))
  {
    AdGroupPayloadKeys();
    AdGroupModelWellFormed();
    SerializeKeys(AdGroupModel, rec, exclude, includeNull);
    AdGroupPayloadLookups(Serialize(AdGroupModel, rec, exclude, includeNull), regionIds, negatives, RegionIdsKey, NegativeKeywordsKey);
  }

  // ---------------------------------------------------------------- DirectStats

  /** `d[k] = conv(d.pop(k))`: the converted value moves to the end under the same key. A
      missing `k` raises a KeyError, a failed conversion its own error. */
  function ConvertAt(d: Dict, k: string, conv: Value -> Result<Value, CodecError>): Result<Dict, CodecError> {
    var v :- Get(d, k);
    var w :- conv(v);
    Ok(Put(Pop(d, k), k, w))
  }

  lemma ConvertAtLookups(d: Dict, k: string, conv: Value -> Result<Value, CodecError>)
    ensures !HasKey(d, k) ==> ConvertAt(d, k, conv) == Err(KeyError(k))
    ensures HasKey(d, k) && conv(Lookup(d, k).value).Err? ==> ConvertAt(d, k, conv) == Err(conv(Lookup(d, k).value).error)
    ensures ConvertAt(d, k, conv).Ok? <==> HasKey(d, k) && conv(Lookup(d, k).value).Ok?
    ensures ConvertAt(d, k, conv).Ok? ==> forall k' :: (Lookup(ConvertAt(d, k, conv).value, k') ==
      if k' == k then Some(conv(Lookup(d, k).value).value) else Lookup(d, k'))
    ensures ConvertAt(d, k, conv).Ok? && CamelKeys(d) ==> CamelKeys(ConvertAt(d, k, conv).value)
  {
    if HasKey(d, k) && conv(Lookup(d, k).value).Ok? {
      var w := conv(Lookup(d, k).value).value;
      var p := Pop(d, k);
      forall k' ensures Lookup(Put(p, k, w), k') == if k' == k then Some(w) else Lookup(d, k') {
        LookupPut(p, k, w, k');
        LookupPop(d, k, k');
      }
      if CamelKeys(d) {
        PopCamelKeys(d, k);
        PutCamelKeys(p, k, w);
      }
    }
  }

  /** `value.lower()`; a value that is not text has no such method. Letters outside A-Z are
      kept as they are. */
  function LowerText(v: Value): (r: Result<Value, CodecError>)
    ensures r.Ok? <==> v.Str?
    ensures r.Ok? ==> (r.value.Str? && |r.value.s| == |v.s|
      && forall i :: 0 <= i < |v.s| && IsUpper(v.s[i]) ==> IsLower(r.value.s[i]))
    ensures r.Err? ==> r.error == AttributeError
  {
    if v.Str? then Ok(Str(Lower(v.s))) else Err(AttributeError)
  }

  /** `date.fromisoformat(value)`: a TypeError for a value that is not text, a ValueError for
      text that is not a YYYY-MM-DD date. */
  function IsoDay(v: Value): (r: Result<Value, CodecError>)
    ensures r.Ok? <==> v.Str? && ParseIsoDate(v.s).Some?
    ensures r.Ok? ==> r.value == Date(ParseIsoDate(v.s).value)
    ensures !v.Str? ==> r == Err(TypeError)
    ensures v.Str? && ParseIsoDate(v.s).None? ==> r == Err(ValueError)
  {
    if !v.Str? then Err(TypeError)
    else match ParseIsoDate(v.s)
      case Some(day) => Ok(Date(day))
      case None => Err(ValueError)
  }

  /** The steps of `DirectStats.deserialize` before the mixin, on the keys given: `tk` becomes
      `rk`, `vk` is lowered, `ak` becomes `gk`, `dk` is parsed as a date and `ik` becomes
      `sk`, in this order. */
  function StatsSteps(data: Dict, tk: string, rk: string, vk: string, ak: string, gk: string,
                      dk: string, ik: string, sk: string): Result<Dict, CodecError> {
    var d1 :- Rename(data, tk, rk);
    var d2 :- ConvertAt(d1, vk, LowerText);
    var d3 :- Rename(d2, ak, gk);
    var d4 :- ConvertAt(d3, dk, IsoDay);
    Rename(d4, ik, sk)
  }

  /** The report row prepared for the mixin: `TargetingLocationId` becomes `region_id`, the
      device is lowered, `AdGroupId` becomes `GroupId`, the date is parsed and `Impressions`
      becomes `Shows`. */
  function StatsInput(data: Dict): Result<Dict, CodecError> {
    StatsSteps(data, TargetingLocationIdKey, "region_id", DeviceKey, AdGroupIdKey, GroupIdKey, DateKey, ImpressionsKey, ShowsKey)
  }

  /** `DirectStats.deserialize`. */
  function StatsDeserialize(data: Dict): Result<Decoded, CodecError> {
    var d :- StatsInput(data);
    Deserialize(DirectStatsModel, d)
  }

  /** The eight keys of the statistics steps are different keys. */
  predicate StatsKeysApart(tk: string, rk: string, vk: string, ak: string, gk: string, dk: string, ik: string, sk: string) {
    tk != rk && tk != vk && tk != ak && tk != gk && tk != dk && tk != ik && tk != sk
    && rk != vk && rk != ak && rk != gk && rk != dk && rk != ik && rk != sk
    && vk != ak && vk != gk && vk != dk && vk != ik && vk != sk
    && ak != gk && ak != dk && ak != ik && ak != sk
    && gk != dk && gk != ik && gk != sk && dk != ik && dk != sk && ik != sk
  }

  /** A report row that `DirectStats.deserialize` prepares without error: all five keys, text
      for the device and a YYYY-MM-DD date. */
  predicate StatsRowWith(data: Dict, tk: string, vk: string, ak: string, dk: string, ik: string) {
    HasKey(data, tk) && HasKey(data, vk) && HasKey(data, ak) && HasKey(data, dk) && HasKey(data, ik)
    && Lookup(data, vk).value.Str? && Lookup(data, dk).value.Str? && ParseIsoDate(Lookup(data, dk).value.s).Some?
  }

  /** One key after `d[to] = d.pop(from)`. */
  lemma RenameAt(d: Dict, from: string, to: string, k: string)
    ensures Rename(d, from, to).Ok? <==> HasKey(d, from)
    ensures Rename(d, from, to).Err? ==> Rename(d, from, to) == Err(KeyError(from))
    ensures Rename(d, from, to).Ok? ==> (Lookup(Rename(d, from, to).value, k) ==
      if k == to then Lookup(d, from) else if k == from then None else Lookup(d, k))
  {
    if HasKey(d, from) {
      LookupPut(Pop(d, from), to, Lookup(d, from).value, k);
      LookupPop(d, from, k);
    }
  }

  /** One key after `d[k] = conv(d.pop(k))`. */
  lemma ConvertAtAt(d: Dict, k: string, conv: Value -> Result<Value, CodecError>, k': string)
    ensures !HasKey(d, k) ==> ConvertAt(d, k, conv) == Err(KeyError(k))
    ensures HasKey(d, k) && conv(Lookup(d, k).value).Err? ==> ConvertAt(d, k, conv) == Err(conv(Lookup(d, k).value).error)
    ensures ConvertAt(d, k, conv).Ok? <==> HasKey(d, k) && conv(Lookup(d, k).value).Ok?
    ensures ConvertAt(d, k, conv).Ok? ==> (Lookup(ConvertAt(d, k, conv).value, k') ==
      if k' == k then Some(conv(Lookup(d, k).value).value) else Lookup(d, k'))
  {
    if HasKey(d, k) && conv(Lookup(d, k).value).Ok? {
      LookupPut(Pop(d, k), k, conv(Lookup(d, k).value).value, k');
      LookupPop(d, k, k');
    }
  }

  /** The steps fail in order: a KeyError for a missing key, an AttributeError for a device
      that is not text, the date's own error; they succeed exactly on complete rows. */
  lemma StatsStepsErrors(data: Dict, tk: string, rk: string, vk: string, ak: string, gk: string,
                         dk: string, ik: string, sk: string)
    requires StatsKeysApart(tk, rk, vk, ak, gk, dk, ik, sk)
    ensures !HasKey(data, tk) ==> StatsSteps(data, tk, rk, vk, ak, gk, dk, ik, sk) == Err(KeyError(tk))
    ensures HasKey(data, tk) && !HasKey(data, vk) ==> StatsSteps(data, tk, rk, vk, ak, gk, dk, ik, sk) == Err(KeyError(vk))
    ensures (HasKey(data, tk) && HasKey(data, vk) && !Lookup(data, vk).value.Str?)
      ==> StatsSteps(data, tk, rk, vk, ak, gk, dk, ik, sk) == Err(AttributeError)
    ensures (HasKey(data, tk) && HasKey(data, vk) && Lookup(data, vk).value.Str? && !HasKey(data, ak))
      ==> StatsSteps(data, tk, rk, vk, ak, gk, dk, ik, sk) == Err(KeyError(ak))
    ensures (HasKey(data, tk) && HasKey(data, vk) && Lookup(data, vk).value.Str? && HasKey(data, ak) && !HasKey(data, dk))
      ==> StatsSteps(data, tk, rk, vk, ak, gk, dk, ik, sk) == Err(KeyError(dk))
    ensures (HasKey(data, tk) && HasKey(data, vk) && Lookup(data, vk).value.Str? && HasKey(data, ak) && HasKey(data, dk)
             && IsoDay(Lookup(data, dk).value).Err?)
      ==> StatsSteps(data, tk, rk, vk, ak, gk, dk, ik, sk) == Err(IsoDay(Lookup(data, dk).value).error)
    ensures (HasKey(data, tk) && HasKey(data, vk) && Lookup(data, vk).value.Str? && HasKey(data, ak) && HasKey(data, dk)
             && IsoDay(Lookup(data, dk).value).Ok? && !HasKey(data, ik))
      ==> StatsSteps(data, tk, rk, vk, ak, gk, dk, ik, sk) == Err(KeyError(ik))
    ensures StatsSteps(data, tk, rk, vk, ak, gk, dk, ik, sk).Ok? <==> StatsRowWith(data, tk, vk, ak, dk, ik)
  {
    RenameAt(data, tk, rk, vk);
    RenameAt(data, tk, rk, ak);
    RenameAt(data, tk, rk, dk);
    RenameAt(data, tk, rk, ik);
    if HasKey(data, tk) {
      var d1 := Rename(data, tk, rk).value;
      ConvertAtAt(d1, vk, LowerText, ak);
      ConvertAtAt(d1, vk, LowerText, dk);
      ConvertAtAt(d1, vk, LowerText, ik);
      if ConvertAt(d1, vk, LowerText).Ok? {
        var d2 := ConvertAt(d1, vk, LowerText).value;
        RenameAt(d2, ak, gk, dk);
        RenameAt(d2, ak, gk, ik);
        if HasKey(d2, ak) {
          var d3 := Rename(d2, ak, gk).value;
          ConvertAtAt(d3, dk, IsoDay, ik);
          if ConvertAt(d3, dk, IsoDay).Ok? {
            var d4 := ConvertAt(d3, dk, IsoDay).value;
            RenameAt(d4, ik, sk, ik);
          }
        }
      }
    }
  }

  /** On a complete row the five values sit under their new keys, the three renamed keys are
      gone and every other key holds what it held. */
  lemma StatsStepsLookups(data: Dict, tk: string, rk: string, vk: string, ak: string, gk: string,
                          dk: string, ik: string, sk: string)
    requires StatsKeysApart(tk, rk, vk, ak, gk, dk, ik, sk) && StatsRowWith(data, tk, vk, ak, dk, ik)
    ensures StatsSteps(data, tk, rk, vk, ak, gk, dk, ik, sk).Ok?
    ensures forall k :: (Lookup(StatsSteps(data, tk, rk, vk, ak, gk, dk, ik, sk).value, k) ==
        if k == rk then Lookup(data, tk)
        else if k == vk then Some(Str(Lower(Lookup(data, vk).value.s)))
        else if k == gk then Lookup(data, ak)
        else if k == dk then Some(Date(ParseIsoDate(Lookup(data, dk).value.s).value))
        else if k == sk then Lookup(data, ik)
        else if k == tk || k == ak || k == ik then None
        else Lookup(data, k))
  {
    StatsStepsErrors(data, tk, rk, vk, ak, gk, dk, ik, sk);
    var d1 := Rename(data, tk, rk).value;
    RenameAt(data, tk, rk, vk);
    var d2 := ConvertAt(d1, vk, LowerText).value;
    RenameAt(data, tk, rk, ak);
    ConvertAtAt(d1, vk, LowerText, ak);
    var d3 := Rename(d2, ak, gk).value;
    RenameAt(data, tk, rk, dk);
    ConvertAtAt(d1, vk, LowerText, dk);
    RenameAt(d2, ak, gk, dk);
    var d4 := ConvertAt(d3, dk, IsoDay).value;
    RenameAt(data, tk, rk, ik);
    ConvertAtAt(d1, vk, LowerText, ik);
    RenameAt(d2, ak, gk, ik);
    ConvertAtAt(d3, dk, IsoDay, ik);
    var d5 := Rename(d4, ik, sk).value;
    assert StatsSteps(data, tk, rk, vk, ak, gk, dk, ik, sk) == Ok(d5);
    forall k ensures Lookup(d5, k) == (
        if k == rk then Lookup(data, tk)
        else if k == vk then Some(Str(Lower(Lookup(data, vk).value.s)))
        else if k == gk then Lookup(data, ak)
        else if k == dk then Some(Date(ParseIsoDate(Lookup(data, dk).value.s).value))
        else if k == sk then Lookup(data, ik)
        else if k == tk || k == ak || k == ik then None
        else Lookup(data, k))
    {
      RenameAt(data, tk, rk, k);
      ConvertAtAt(d1, vk, LowerText, k);
      RenameAt(d2, ak, gk, k);
      ConvertAtAt(d3, dk, IsoDay, k);
      RenameAt(d4, ik, sk, k);
    }
  }

  /** Text without upper-case letters and dashes, which `inflection.underscore` leaves alone. */
  predicate Plain(s: string) {
    forall i :: 0 <= i < |s| ==> !IsUpper(s[i]) && s[i] != '-'
  }

  lemma {:induction false} UnderscoreAfterPlain(prev: char, t: string)
    requires Plain(t)
    ensures UnderscoreAfter(prev, t) == t
    decreases |t|
  {
    if t != [] {
      assert Plain(t[1..]) by {
        forall i | 0 <= i < |t[1..]| ensures !IsUpper(t[1..][i]) && t[1..][i] != '-' {
          assert t[1..][i] == t[i + 1];
        }
      }
      UnderscoreAfterPlain(t[0], t[1..]);
    }
  }

  /** `underscore` is the identity on plain text, such as the report's `region_id`. */
  lemma UnderscorePlain(s: string)
    requires Plain(s)
    ensures Underscore(s) == s
  {
    if s != [] {
      assert Plain(s[1..]) by {
        forall i | 0 <= i < |s[1..]| ensures !IsUpper(s[1..][i]) && s[1..][i] != '-' {
          assert s[1..][i] == s[i + 1];
        }
      }
      UnderscoreAfterPlain(s[0], s[1..]);
    }
  }

  lemma RegionIdName()
    ensures Underscore("region_id") == "region_id"
  {
    UnderscorePlain("region_id");
  }

  /** `d[to] = d.pop(from)` followed by `d[ck] = conv(d.pop(ck))` keeps camel keys when no
      key of `d` names the attribute of `to`; the only key it can add is `to`. */
  lemma RenameConvertCamel(d: Dict, from: string, to: string, ck: string, conv: Value -> Result<Value, CodecError>)
    requires CamelKeys(d) && HasKey(d, from)
    requires forall k :: HasKey(d, k) ==> Underscore(k) != Underscore(to)
    requires ConvertAt(Rename(d, from, to).value, ck, conv).Ok?
    ensures CamelKeys(ConvertAt(Rename(d, from, to).value, ck, conv).value)
    ensures forall k :: HasKey(ConvertAt(Rename(d, from, to).value, ck, conv).value, k) ==> k == to || HasKey(d, k)
  {
    RenameLookups(d, from, to);
    var d1 := Rename(d, from, to).value;
    ConvertAtLookups(d1, ck, conv);
    var d2 := ConvertAt(d1, ck, conv).value;
    forall k | HasKey(d2, k) ensures k == to || HasKey(d, k) {
      ConvertAtAt(d1, ck, conv, k);
      RenameAt(d, from, to, k);
    }
  }

  /** The prepared row keeps distinct keys with distinct attribute names when the row has
      no key already naming one of the three new attributes. */
  lemma StatsStepsCamel(data: Dict, tk: string, rk: string, vk: string, ak: string, gk: string,
                        dk: string, ik: string, sk: string)
    requires StatsKeysApart(tk, rk, vk, ak, gk, dk, ik, sk) && StatsRowWith(data, tk, vk, ak, dk, ik)
    requires CamelKeys(data)
    requires Underscore(rk) != Underscore(gk) && Underscore(rk) != Underscore(sk) && Underscore(gk) != Underscore(sk)
    requires forall k :: HasKey(data, k) ==>
      Underscore(k) != Underscore(rk) && Underscore(k) != Underscore(gk) && Underscore(k) != Underscore(sk)
    ensures StatsSteps(data, tk, rk, vk, ak, gk, dk, ik, sk).Ok?
    ensures CamelKeys(StatsSteps(data, tk, rk, vk, ak, gk, dk, ik, sk).value)
  {
    StatsStepsErrors(data, tk, rk, vk, ak, gk, dk, ik, sk);
    RenameConvertCamel(data, tk, rk, vk, LowerText);
    var d2 := ConvertAt(Rename(data, tk, rk).value, vk, LowerText).value;
    RenameConvertCamel(d2, ak, gk, dk, IsoDay);
    var d4 := ConvertAt(Rename(d2, ak, gk).value, dk, IsoDay).value;
    RenameLookups(d4, ik, sk);
  }

  lemma StatsKeysNamed()
    ensures StatsKeysApart(TargetingLocationIdKey, "region_id", DeviceKey, AdGroupIdKey, GroupIdKey, DateKey, ImpressionsKey, ShowsKey)
    ensures Underscore("region_id") == "region_id" && Underscore(GroupIdKey) == "group_id" && Underscore(ShowsKey) == "shows"
    ensures Underscore(DeviceKey) == "device" && Underscore(DateKey) == "date"
  {
    TargetingLocationIdKeyName();
    RegionIdName();
    DeviceKeyName();
    AdGroupIdKeyName();
    GroupIdKeyName();
    DateKeyName();
    ImpressionsKeyName();
    ShowsKeyName();
  }

  /** The kind of the first field named `fs[i].attname`. */
  lemma {:induction false} KindInFirst(fs: seq<Field>, i: nat)
    requires i < |fs| && forall j :: 0 <= j < i ==> fs[j].attname != fs[i].attname
    ensures KindIn(fs, fs[i].attname) == fs[i].kind
  {
    if i > 0 {
      assert fs[1..][i - 1] == fs[i];
      assert forall j :: 0 <= j < i - 1 ==> fs[1..][j] == fs[j + 1];
      KindInFirst(fs[1..], i - 1);
    }
  }

  lemma DirectStatsDateKind()
    ensures "date" in FieldNames(DirectStatsModel) && KindIn(DirectStatsModel.fields, "date") == OtherKind
  {
    var fs := DirectStatsModel.fields;
    assert fs[1] == Field("date", OtherKind);
    assert forall j :: 0 <= j < 1 ==> fs[j].attname != "date";
    KindInFirst(fs, 1);
  }

  lemma DirectStatsShowsKind()
    ensures "shows" in FieldNames(DirectStatsModel) && KindIn(DirectStatsModel.fields, "shows") == IntKind
  {
    var fs := DirectStatsModel.fields;
    assert fs[2] == Field("shows", IntKind);
    assert forall j :: 0 <= j < 2 ==> fs[j].attname != "shows";
    KindInFirst(fs, 2);
  }

  lemma DirectStatsRegionKind()
    ensures "region_id" in FieldNames(DirectStatsModel) && KindIn(DirectStatsModel.fields, "region_id") == IntKind
  {
    var fs := DirectStatsModel.fields;
    assert fs[4] == Field("region_id", IntKind);
    assert forall j :: 0 <= j < 4 ==> fs[j].attname != "region_id";
    KindInFirst(fs, 4);
  }

  lemma DirectStatsDeviceKind()
    ensures "device" in FieldNames(DirectStatsModel) && KindIn(DirectStatsModel.fields, "device") == TextKind
  {
    var fs := DirectStatsModel.fields;
    assert fs[5] == Field("device", TextKind);
    assert forall j :: 0 <= j < 5 ==> fs[j].attname != "device";
    KindInFirst(fs, 5);
  }

  lemma DirectStatsGroupKind()
    ensures "group_id" in FieldNames(DirectStatsModel) && KindIn(DirectStatsModel.fields, "group_id") == IntKind
  {
    var fs := DirectStatsModel.fields;
    assert fs[7] == Field("group_id", IntKind);
    assert forall j :: 0 <= j < 7 ==> fs[j].attname != "group_id";
    KindInFirst(fs, 7);
  }

  /** An attribute read from key `k` of a camel-keyed object by a single-table model: the
      converted value, and a failed conversion fails the whole `deserialize`. */
  lemma SingleTableRead(m: Model, d: Dict, k: string, n: string)
    requires !m.multiTable && CamelKeys(d) && HasKey(d, k) && Underscore(k) == n && n in FieldNames(m)
    ensures Deserialize(m, d).Ok? ==>
      (Convert(KindIn(m.fields, n), Lookup(d, k).value).Ok? && n in Deserialize(m, d).value.attrs
       && Deserialize(m, d).value.attrs[n] == Convert(KindIn(m.fields, n), Lookup(d, k).value).value)
    ensures Convert(KindIn(m.fields, n), Lookup(d, k).value).Err? ==> Deserialize(m, d).Err?
  {
    KwargsAt(m, d, k);
  }

  /** The kinds of the five attributes the report's columns feed, named `rn` (region), `vn`
      (device), `gn` (group), `dn` (date) and `sn` (shows). */
  predicate StatsKinds(m: Model, rn: string, vn: string, gn: string, dn: string, sn: string) {
    !m.multiTable
    && rn in FieldNames(m) && KindIn(m.fields, rn) == IntKind
    && vn in FieldNames(m) && KindIn(m.fields, vn) == TextKind
    && gn in FieldNames(m) && KindIn(m.fields, gn) == IntKind
    && dn in FieldNames(m) && KindIn(m.fields, dn) == OtherKind
    && sn in FieldNames(m) && KindIn(m.fields, sn) == IntKind
  }

  lemma DirectStatsShaped()
    ensures StatsKinds(DirectStatsModel, "region_id", "device", "group_id", "date", "shows")
  {
    DirectStatsRegionKind();
    DirectStatsDeviceKind();
    DirectStatsGroupKind();
    DirectStatsDateKind();
    DirectStatsShowsKind();
  }

  /** The attributes read from a prepared report row, under the names given. */
  predicate StatsAttrsWith(data: Dict, tk: string, vk: string, ak: string, dk: string, ik: string,
                           rn: string, vn: string, gn: string, dn: string, sn: string, r: Result<Decoded, CodecError>)
    requires StatsRowWith(data, tk, vk, ak, dk, ik)
  {
    r.Ok? ==>
      var a := r.value.attrs;
      && rn in a && Convert(IntKind, Lookup(data, tk).value).Ok?
      && a[rn] == Convert(IntKind, Lookup(data, tk).value).value
      && vn in a && a[vn] == Str(Lower(Lookup(data, vk).value.s))
      && gn in a && Convert(IntKind, Lookup(data, ak).value).Ok?
      && a[gn] == Convert(IntKind, Lookup(data, ak).value).value
      && dn in a && a[dn] == Date(ParseIsoDate(Lookup(data, dk).value.s).value)
      && sn in a && Convert(IntKind, Lookup(data, ik).value).Ok?
      && a[sn] == Convert(IntKind, Lookup(data, ik).value).value
  }

  /** No key of the row names one of the attributes `rn`, `gn`, `sn`. */
  ghost predicate NoTargets(data: Dict, rn: string, gn: string, sn: string) {
    forall k :: HasKey(data, k) ==> Underscore(k) != rn && Underscore(k) != gn && Underscore(k) != sn
  }

  /** The attribute a single-table model reads from key `k` when its value converts to `w`. */
  lemma ReadAs(m: Model, d: Dict, k: string, w: Value)
    requires !m.multiTable && CamelKeys(d) && HasKey(d, k) && Underscore(k) in FieldNames(m)
    requires Convert(KindIn(m.fields, Underscore(k)), Lookup(d, k).value) == Ok(w)
    ensures Deserialize(m, d).Ok? ==> Underscore(k) in Deserialize(m, d).value.attrs && Deserialize(m, d).value.attrs[Underscore(k)] == w
  {
    KwargsAt(m, d, k);
  }

  /** A value under key `k` that does not convert makes `deserialize` fail. */
  lemma ReadFails(m: Model, d: Dict, k: string)
    requires CamelKeys(d) && HasKey(d, k) && Underscore(k) in FieldNames(m)
    requires Convert(KindIn(m.fields, Underscore(k)), Lookup(d, k).value).Err?
    ensures Deserialize(m, d).Err?
  {
    KwargsAt(m, d, k);
  }

  /** The prepared row keeps camel keys, and key `k` holds what the steps put there. */
  lemma StatsPrepared(data: Dict, tk: string, rk: string, vk: string, ak: string, gk: string,
                      dk: string, ik: string, sk: string, k: string)
    requires StatsKeysApart(tk, rk, vk, ak, gk, dk, ik, sk) && StatsRowWith(data, tk, vk, ak, dk, ik)
    requires Underscore(rk) != Underscore(gk) && Underscore(rk) != Underscore(sk) && Underscore(gk) != Underscore(sk)
    requires CamelKeys(data) && NoTargets(data, Underscore(rk), Underscore(gk), Underscore(sk))
    ensures StatsSteps(data, tk, rk, vk, ak, gk, dk, ik, sk).Ok? && CamelKeys(StatsSteps(data, tk, rk, vk, ak, gk, dk, ik, sk).value)
    ensures k == rk ==> Lookup(StatsSteps(data, tk, rk, vk, ak, gk, dk, ik, sk).value, k) == Lookup(data, tk)
    ensures k == vk ==> Lookup(StatsSteps(data, tk, rk, vk, ak, gk, dk, ik, sk).value, k) == Some(Str(Lower(Lookup(data, vk).value.s)))
    ensures k == gk ==> Lookup(StatsSteps(data, tk, rk, vk, ak, gk, dk, ik, sk).value, k) == Lookup(data, ak)
    ensures k == dk ==> Lookup(StatsSteps(data, tk, rk, vk, ak, gk, dk, ik, sk).value, k) == Some(Date(ParseIsoDate(Lookup(data, dk).value.s).value))
    ensures k == sk ==> Lookup(StatsSteps(data, tk, rk, vk, ak, gk, dk, ik, sk).value, k) == Lookup(data, ik)
  {
    StatsStepsCamel(data, tk, rk, vk, ak, gk, dk, ik, sk);
    StatsStepsLookups(data, tk, rk, vk, ak, gk, dk, ik, sk);
  }

  lemma StatsRegionRead(m: Model, data: Dict, tk: string, rk: string, vk: string, ak: string, gk: string,
                      dk: string, ik: string, sk: string)
    requires StatsKinds(m, Underscore(rk), Underscore(vk), Underscore(gk), Underscore(dk), Underscore(sk))
    requires StatsKeysApart(tk, rk, vk, ak, gk, dk, ik, sk) && StatsRowWith(data, tk, vk, ak, dk, ik)
    requires Underscore(rk) != Underscore(gk) && Underscore(rk) != Underscore(sk) && Underscore(gk) != Underscore(sk)
    requires CamelKeys(data) && NoTargets(data, Underscore(rk), Underscore(gk), Underscore(sk))
    ensures StatsSteps(data, tk, rk, vk, ak, gk, dk, ik, sk).Ok?
    ensures Deserialize(m, StatsSteps(data, tk, rk, vk, ak, gk, dk, ik, sk).value).Ok? ==> (Convert(IntKind, Lookup(data, tk).value).Ok? && Underscore(rk) in Deserialize(m, StatsSteps(data, tk, rk, vk, ak, gk, dk, ik, sk).value).value.attrs
      && Deserialize(m, StatsSteps(data, tk, rk, vk, ak, gk, dk, ik, sk).value).value.attrs[Underscore(rk)] == Convert(IntKind, Lookup(data, tk).value).value)
    ensures Convert(IntKind, Lookup(data, tk).value).Err? ==> Deserialize(m, StatsSteps(data, tk, rk, vk, ak, gk, dk, ik, sk).value).Err?
  {
    StatsPrepared(data, tk, rk, vk, ak, gk, dk, ik, sk, rk);
    var d := StatsSteps(data, tk, rk, vk, ak, gk, dk, ik, sk).value;
    if Convert(IntKind, Lookup(data, tk).value).Ok? {
      ReadAs(m, d, rk, Convert(IntKind, Lookup(data, tk).value).value);
    } else {
      ReadFails(m, d, rk);
    }
  }

  lemma StatsShowsRead(m: Model, data: Dict, tk: string, rk: string, vk: string, ak: string, gk: string,
                      dk: string, ik: string, sk: string)
    requires StatsKinds(m, Underscore(rk), Underscore(vk), Underscore(gk), Underscore(dk), Underscore(sk))
    requires StatsKeysApart(tk, rk, vk, ak, gk, dk, ik, sk) && StatsRowWith(data, tk, vk, ak, dk, ik)
    requires Underscore(rk) != Underscore(gk) && Underscore(rk) != Underscore(sk) && Underscore(gk) != Underscore(sk)
    requires CamelKeys(data) && NoTargets(data, Underscore(rk), Underscore(gk), Underscore(sk))
    ensures StatsSteps(data, tk, rk, vk, ak, gk, dk, ik, sk).Ok?
    ensures Deserialize(m, StatsSteps(data, tk, rk, vk, ak, gk, dk, ik, sk).value).Ok? ==> (Convert(IntKind, Lookup(data, ik).value).Ok? && Underscore(sk) in Deserialize(m, StatsSteps(data, tk, rk, vk, ak, gk, dk, ik, sk).value).value.attrs
      && Deserialize(m, StatsSteps(data, tk, rk, vk, ak, gk, dk, ik, sk).value).value.attrs[Underscore(sk)] == Convert(IntKind, Lookup(data, ik).value).value)
    ensures Convert(IntKind, Lookup(data, ik).value).Err? ==> Deserialize(m, StatsSteps(data, tk, rk, vk, ak, gk, dk, ik, sk).value).Err?
  {
    StatsPrepared(data, tk, rk, vk, ak, gk, dk, ik, sk, sk);
    var d := StatsSteps(data, tk, rk, vk, ak, gk, dk, ik, sk).value;
    if Convert(IntKind, Lookup(data, ik).value).Ok? {
      ReadAs(m, d, sk, Convert(IntKind, Lookup(data, ik).value).value);
    } else {
      ReadFails(m, d, sk);
    }
  }

  lemma StatsDeviceRead(m: Model, data: Dict, tk: string, rk: string, vk: string, ak: string, gk: string,
                      dk: string, ik: string, sk: string)
    requires StatsKinds(m, Underscore(rk), Underscore(vk), Underscore(gk), Underscore(dk), Underscore(sk))
    requires StatsKeysApart(tk, rk, vk, ak, gk, dk, ik, sk) && StatsRowWith(data, tk, vk, ak, dk, ik)
    requires Underscore(rk) != Underscore(gk) && Underscore(rk) != Underscore(sk) && Underscore(gk) != Underscore(sk)
    requires CamelKeys(data) && NoTargets(data, Underscore(rk), Underscore(gk), Underscore(sk))
    ensures StatsSteps(data, tk, rk, vk, ak, gk, dk, ik, sk).Ok?
    ensures Deserialize(m, StatsSteps(data, tk, rk, vk, ak, gk, dk, ik, sk).value).Ok? ==> (Underscore(vk) in Deserialize(m, StatsSteps(data, tk, rk, vk, ak, gk, dk, ik, sk).value).value.attrs
      && Deserialize(m, StatsSteps(data, tk, rk, vk, ak, gk, dk, ik, sk).value).value.attrs[Underscore(vk)] == Str(Lower(Lookup(data, vk).value.s)))
  {
    StatsPrepared(data, tk, rk, vk, ak, gk, dk, ik, sk, vk);
    ReadAs(m, StatsSteps(data, tk, rk, vk, ak, gk, dk, ik, sk).value, vk, Str(Lower(Lookup(data, vk).value.s)));
  }

  lemma StatsGroupRead(m: Model, data: Dict, tk: string, rk: string, vk: string, ak: string, gk: string,
                      dk: string, ik: string, sk: string)
    requires StatsKinds(m, Underscore(rk), Underscore(vk), Underscore(gk), Underscore(dk), Underscore(sk))
    requires StatsKeysApart(tk, rk, vk, ak, gk, dk, ik, sk) && StatsRowWith(data, tk, vk, ak, dk, ik)
    requires Underscore(rk) != Underscore(gk) && Underscore(rk) != Underscore(sk) && Underscore(gk) != Underscore(sk)
    requires CamelKeys(data) && NoTargets(data, Underscore(rk), Underscore(gk), Underscore(sk))
    ensures StatsSteps(data, tk, rk, vk, ak, gk, dk, ik, sk).Ok?
    ensures Deserialize(m, StatsSteps(data, tk, rk, vk, ak, gk, dk, ik, sk).value).Ok? ==> (Convert(IntKind, Lookup(data, ak).value).Ok? && Underscore(gk) in Deserialize(m, StatsSteps(data, tk, rk, vk, ak, gk, dk, ik, sk).value).value.attrs
      && Deserialize(m, StatsSteps(data, tk, rk, vk, ak, gk, dk, ik, sk).value).value.attrs[Underscore(gk)] == Convert(IntKind, Lookup(data, ak).value).value)
    ensures Convert(IntKind, Lookup(data, ak).value).Err? ==> Deserialize(m, StatsSteps(data, tk, rk, vk, ak, gk, dk, ik, sk).value).Err?
  {
    StatsPrepared(data, tk, rk, vk, ak, gk, dk, ik, sk, gk);
    var d := StatsSteps(data, tk, rk, vk, ak, gk, dk, ik, sk).value;
    if Convert(IntKind, Lookup(data, ak).value).Ok? {
      ReadAs(m, d, gk, Convert(IntKind, Lookup(data, ak).value).value);
    } else {
      ReadFails(m, d, gk);
    }
  }

  lemma StatsDateRead(m: Model, data: Dict, tk: string, rk: string, vk: string, ak: string, gk: string,
                      dk: string, ik: string, sk: string)
    requires StatsKinds(m, Underscore(rk), Underscore(vk), Underscore(gk), Underscore(dk), Underscore(sk))
    requires StatsKeysApart(tk, rk, vk, ak, gk, dk, ik, sk) && StatsRowWith(data, tk, vk, ak, dk, ik)
    requires Underscore(rk) != Underscore(gk) && Underscore(rk) != Underscore(sk) && Underscore(gk) != Underscore(sk)
    requires CamelKeys(data) && NoTargets(data, Underscore(rk), Underscore(gk), Underscore(sk))
    ensures StatsSteps(data, tk, rk, vk, ak, gk, dk, ik, sk).Ok?
    ensures Deserialize(m, StatsSteps(data, tk, rk, vk, ak, gk, dk, ik, sk).value).Ok? ==> (Underscore(dk) in Deserialize(m, StatsSteps(data, tk, rk, vk, ak, gk, dk, ik, sk).value).value.attrs
      && Deserialize(m, StatsSteps(data, tk, rk, vk, ak, gk, dk, ik, sk).value).value.attrs[Underscore(dk)] == Date(ParseIsoDate(Lookup(data, dk).value.s).value))
  {
    StatsPrepared(data, tk, rk, vk, ak, gk, dk, ik, sk, dk);
    ReadAs(m, StatsSteps(data, tk, rk, vk, ak, gk, dk, ik, sk).value, dk, Date(ParseIsoDate(Lookup(data, dk).value.s).value));
  }

  /** A model of statistics-shaped kinds reading a report row prepared by the steps. */
  lemma StatsAttrsFor(m: Model, data: Dict, tk: string, rk: string, vk: string, ak: string, gk: string,
                      dk: string, ik: string, sk: string)
    requires StatsKinds(m, Underscore(rk), Underscore(vk), Underscore(gk), Underscore(dk), Underscore(sk))
    requires StatsKeysApart(tk, rk, vk, ak, gk, dk, ik, sk) && StatsRowWith(data, tk, vk, ak, dk, ik)
    requires Underscore(rk) != Underscore(gk) && Underscore(rk) != Underscore(sk) && Underscore(gk) != Underscore(sk)
    requires CamelKeys(data) && NoTargets(data, Underscore(rk), Underscore(gk), Underscore(sk))
    ensures StatsSteps(data, tk, rk, vk, ak, gk, dk, ik, sk).Ok?
    ensures StatsAttrsWith(data, tk, vk, ak, dk, ik, Underscore(rk), Underscore(vk), Underscore(gk), Underscore(dk), Underscore(sk),
      Deserialize(m, StatsSteps(data, tk, rk, vk, ak, gk, dk, ik, sk).value))
    ensures Convert(IntKind, Lookup(data, tk).value).Err? ==> Deserialize(m, StatsSteps(data, tk, rk, vk, ak, gk, dk, ik, sk).value).Err?
    ensures Convert(IntKind, Lookup(data, ik).value).Err? ==> Deserialize(m, StatsSteps(data, tk, rk, vk, ak, gk, dk, ik, sk).value).Err?
    ensures Convert(IntKind, Lookup(data, ak).value).Err? ==> Deserialize(m, StatsSteps(data, tk, rk, vk, ak, gk, dk, ik, sk).value).Err?
  {
    StatsRegionRead(m, data, tk, rk, vk, ak, gk, dk, ik, sk);
    StatsShowsRead(m, data, tk, rk, vk, ak, gk, dk, ik, sk);
    StatsDeviceRead(m, data, tk, rk, vk, ak, gk, dk, ik, sk);
    StatsGroupRead(m, data, tk, rk, vk, ak, gk, dk, ik, sk);
    StatsDateRead(m, data, tk, rk, vk, ak, gk, dk, ik, sk);
  }

  /** A report row as the Reports service sends it: the five columns the steps read, a text
      device and a YYYY-MM-DD date. */
  predicate StatsRow(data: Dict) {
    StatsRowWith(data, TargetingLocationIdKey, DeviceKey, AdGroupIdKey, DateKey, ImpressionsKey)
  }

  /** `DirectStats.deserialize` on a report row whose columns name none of `region_id`,
      `group_id` and `shows`: the statistics row records the region from
      `TargetingLocationId` and the shows from `Impressions` as integers, the device lowered,
      the group from `AdGroupId` as an integer, and the parsed day; a region, group or shows
      value that is no integer makes it fail. */
  lemma StatsDeserializeAttrs(data: Dict)
    requires CamelKeys(data) && StatsRow(data) && NoTargets(data, "region_id", "group_id", "shows")
    ensures StatsInput(data).Ok?
    ensures StatsAttrsWith(data, TargetingLocationIdKey, DeviceKey, AdGroupIdKey, DateKey, ImpressionsKey,
      "region_id", "device", "group_id", "date", "shows", StatsDeserialize(data))
    ensures Convert(IntKind, Lookup(data, TargetingLocationIdKey).value).Err? ==> StatsDeserialize(data).Err?
    ensures Convert(IntKind, Lookup(data, ImpressionsKey).value).Err? ==> StatsDeserialize(data).Err?
    ensures Convert(IntKind, Lookup(data, AdGroupIdKey).value).Err? ==> StatsDeserialize(data).Err?
  {
    DirectStatsShaped();
    StatsInputRead(DirectStatsModel, data);
    StatsDeserializeOf(data);
  }

  /** The steps of the statistics model succeed on a report row, and the deserialization of
      what they give, by a model with the five attributes, reads them, failing when the region,
      the group or the shows are no integer. */
  lemma StatsInputRead(m: Model, data: Dict)
    requires StatsKinds(m, "region_id", "device", "group_id", "date", "shows")
    requires CamelKeys(data) && StatsRow(data) && NoTargets(data, "region_id", "group_id", "shows")
    ensures StatsInput(data).Ok?
    ensures var dec := Deserialize(m, StatsInput(data).value);
      && StatsAttrsWith(data, TargetingLocationIdKey, DeviceKey, AdGroupIdKey, DateKey, ImpressionsKey,
                        "region_id", "device", "group_id", "date", "shows", dec)
      && (Convert(IntKind, Lookup(data, TargetingLocationIdKey).value).Err? ==> dec.Err?)
      && (Convert(IntKind, Lookup(data, ImpressionsKey).value).Err? ==> dec.Err?)
      && (Convert(IntKind, Lookup(data, AdGroupIdKey).value).Err? ==> dec.Err?)
  {
    StatsKeysNamed();
    StatsAttrsFor(m, data, TargetingLocationIdKey, "region_id", DeviceKey, AdGroupIdKey, GroupIdKey, DateKey, ImpressionsKey, ShowsKey);
  }

  lemma StatsDeserializeOf(data: Dict)
    requires StatsInput(data).Ok?
    ensures StatsDeserialize(data) == Deserialize(DirectStatsModel, StatsInput(data).value)
  {
  }

  // ---------------------------------------------------------------- the schemas are well formed

  /** Attribute names distinct in both parts of a split, and across it, are distinct. */
  lemma DistinctAttnamesJoin(fs: seq<Field>, k: nat)
    requires k <= |fs| && DistinctAttnames(fs[..k]) && DistinctAttnames(fs[k..])
    requires forall i, j :: 0 <= i < k <= j < |fs| ==> fs[i].attname != fs[j].attname
    ensures DistinctAttnames(fs)
  {
    forall i, j | 0 <= i < j < |fs| ensures fs[i].attname != fs[j].attname {
      if j < k {
        assert fs[..k][i] == fs[i] && fs[..k][j] == fs[j];
      } else if i >= k {
        assert fs[k..][i - k] == fs[i] && fs[k..][j - k] == fs[j];
      }
    }
  }

  lemma RegionModelSnakeNames0()
    ensures forall i :: 0 <= i < 2 ==> SnakeName(RegionModel.fields[i].attname)
  {
    IdSnake();
    GeoRegionNameSnake();
    assert RegionModel.fields[0].attname == "id";
    assert RegionModel.fields[1].attname == "geo_region_name";
  }

  lemma RegionModelSnakeNames1()
    ensures forall i :: 2 <= i < 4 ==> SnakeName(RegionModel.fields[i].attname)
  {
    ParentIdSnake();
    GeoRegionTypeSnake();
    assert RegionModel.fields[2].attname == "parent_id";
    assert RegionModel.fields[3].attname == "geo_region_type";
  }

  lemma RegionModelDistinctNames()
    ensures DistinctAttnames(RegionModel.fields)
  {
  }

  lemma RegionModelWellFormed()
    ensures WellFormed(RegionModel)
  {
    RegionModelSnakeNames0();
    RegionModelSnakeNames1();
    RegionModelDistinctNames();
  }

  lemma CampaignModelSnakeNames0()
    ensures forall i :: 0 <= i < 2 ==> SnakeName(CampaignModel.fields[i].attname) && CampaignModel.fields[i].attname !in CampaignApiOnly
  {
    IdSnake();
    NameSnake();
    assert CampaignModel.fields[0].attname == "id";
    assert CampaignModel.fields[1].attname == "name";
  }

  lemma CampaignModelSnakeNames1()
    ensures forall i :: 2 <= i < 4 ==> SnakeName(CampaignModel.fields[i].attname) && CampaignModel.fields[i].attname !in CampaignApiOnly
  {
    StatusSnake();
    StateSnake();
    assert CampaignModel.fields[2].attname == "status";
    assert CampaignModel.fields[3].attname == "state";
  }

  lemma CampaignModelSnakeNames2()
    ensures forall i :: 4 <= i < 6 ==> SnakeName(CampaignModel.fields[i].attname) && CampaignModel.fields[i].attname !in CampaignApiOnly
  {
    AccountIdSnake();
    TypeSnake();
    assert CampaignModel.fields[4].attname == "account_id";
    assert CampaignModel.fields[5].attname == "type";
  }

  lemma CampaignModelSnakeNames3()
    ensures forall i :: 6 <= i < 8 ==> SnakeName(CampaignModel.fields[i].attname) && CampaignModel.fields[i].attname !in CampaignApiOnly
  {
    StartDateSnake();
    DailyBudgetAmountSnake();
    assert CampaignModel.fields[6].attname == "start_date";
    assert CampaignModel.fields[7].attname == "daily_budget_amount";
  }

  lemma CampaignModelSnakeNames4()
    ensures forall i :: 8 <= i < 9 ==> SnakeName(CampaignModel.fields[i].attname) && CampaignModel.fields[i].attname !in CampaignApiOnly
  {
    DailyBudgetModeSnake();
    assert CampaignModel.fields[8].attname == "daily_budget_mode";
  }

  lemma CampaignModelDistinctLow()
    ensures DistinctAttnames(CampaignModel.fields[..4])
  {
  }

  lemma CampaignModelDistinctHigh()
    ensures DistinctAttnames(CampaignModel.fields[4..])
  {
  }

  lemma CampaignModelDistinctAcross()
    ensures forall i, j :: 0 <= i < 4 <= j < 9 ==> CampaignModel.fields[i].attname != CampaignModel.fields[j].attname
  {
  }

  lemma CampaignModelDistinctNames()
    ensures DistinctAttnames(CampaignModel.fields)
  {
    CampaignModelDistinctLow();
    CampaignModelDistinctHigh();
    CampaignModelDistinctAcross();
    DistinctAttnamesJoin(CampaignModel.fields, 4);
  }

  lemma CampaignApiOnlyNames()
    ensures forall n :: n in CampaignApiOnly ==> n !in FieldNames(CampaignModel)
  {
    CampaignModelSnakeNames0();
    CampaignModelSnakeNames1();
    CampaignModelSnakeNames2();
    CampaignModelSnakeNames3();
    CampaignModelSnakeNames4();
  }

  lemma CampaignModelWellFormed()
    ensures WellFormed(CampaignModel)
  {
    CampaignModelSnakeNames0();
    CampaignModelSnakeNames1();
    CampaignModelSnakeNames2();
    CampaignModelSnakeNames3();
    CampaignModelSnakeNames4();
    CampaignModelDistinctNames();
  }

  lemma TextCampaignModelSnakeNames0()
    ensures forall i :: 0 <= i < 2 ==> SnakeName(TextCampaignModel.fields[i].attname) && TextCampaignModel.fields[i].attname !in TextCampaignApiOnly
  {
    IdSnake();
    NameSnake();
    assert TextCampaignModel.fields[0].attname == "id";
    assert TextCampaignModel.fields[1].attname == "name";
  }

  lemma TextCampaignModelSnakeNames1()
    ensures forall i :: 2 <= i < 4 ==> SnakeName(TextCampaignModel.fields[i].attname) && TextCampaignModel.fields[i].attname !in TextCampaignApiOnly
  {
    StatusSnake();
    StateSnake();
    assert TextCampaignModel.fields[2].attname == "status";
    assert TextCampaignModel.fields[3].attname == "state";
  }

  lemma TextCampaignModelSnakeNames2()
    ensures forall i :: 4 <= i < 6 ==> SnakeName(TextCampaignModel.fields[i].attname) && TextCampaignModel.fields[i].attname !in TextCampaignApiOnly
  {
    AccountIdSnake();
    TypeSnake();
    assert TextCampaignModel.fields[4].attname == "account_id";
    assert TextCampaignModel.fields[5].attname == "type";
  }

  lemma TextCampaignModelSnakeNames3()
    ensures forall i :: 6 <= i < 8 ==> SnakeName(TextCampaignModel.fields[i].attname) && TextCampaignModel.fields[i].attname !in TextCampaignApiOnly
  {
    StartDateSnake();
    DailyBudgetAmountSnake();
    assert TextCampaignModel.fields[6].attname == "start_date";
    assert TextCampaignModel.fields[7].attname == "daily_budget_amount";
  }

  lemma TextCampaignModelSnakeNames4()
    ensures forall i :: 8 <= i < 10 ==> SnakeName(TextCampaignModel.fields[i].attname) && TextCampaignModel.fields[i].attname !in TextCampaignApiOnly
  {
    DailyBudgetModeSnake();
    CampaignPtrIdSnake();
    assert TextCampaignModel.fields[8].attname == "daily_budget_mode";
    assert TextCampaignModel.fields[9].attname == "campaign_ptr_id";
  }

  lemma TextCampaignModelDistinctLow()
    ensures DistinctAttnames(TextCampaignModel.fields[..5])
  {
  }

  lemma TextCampaignModelDistinctHigh()
    ensures DistinctAttnames(TextCampaignModel.fields[5..])
  {
  }

  lemma TextCampaignModelDistinctAcross()
    ensures forall i, j :: 0 <= i < 5 <= j < 10 ==> TextCampaignModel.fields[i].attname != TextCampaignModel.fields[j].attname
  {
  }

  lemma TextCampaignModelDistinctNames()
    ensures DistinctAttnames(TextCampaignModel.fields)
  {
    TextCampaignModelDistinctLow();
    TextCampaignModelDistinctHigh();
    TextCampaignModelDistinctAcross();
    DistinctAttnamesJoin(TextCampaignModel.fields, 5);
  }

  lemma TextCampaignApiOnlyNames()
    ensures forall n :: n in TextCampaignApiOnly ==> n !in FieldNames(TextCampaignModel)
  {
    TextCampaignModelSnakeNames0();
    TextCampaignModelSnakeNames1();
    TextCampaignModelSnakeNames2();
    TextCampaignModelSnakeNames3();
    TextCampaignModelSnakeNames4();
  }

  lemma TextCampaignModelWellFormed()
    ensures WellFormed(TextCampaignModel)
  {
    TextCampaignModelSnakeNames0();
    TextCampaignModelSnakeNames1();
    TextCampaignModelSnakeNames2();
    TextCampaignModelSnakeNames3();
    TextCampaignModelSnakeNames4();
    TextCampaignModelDistinctNames();
  }

  lemma AdGroupModelSnakeNames0()
    ensures forall i :: 0 <= i < 2 ==> SnakeName(AdGroupModel.fields[i].attname) && AdGroupModel.fields[i].attname !in AdGroupApiOnly
  {
    IdSnake();
    CampaignIdSnake();
    assert AdGroupModel.fields[0].attname == "id";
    assert AdGroupModel.fields[1].attname == "campaign_id";
  }

  lemma AdGroupModelSnakeNames1()
    ensures forall i :: 2 <= i < 4 ==> SnakeName(AdGroupModel.fields[i].attname) && AdGroupModel.fields[i].attname !in AdGroupApiOnly
  {
    NameSnake();
    StateSnake();
    assert AdGroupModel.fields[2].attname == "name";
    assert AdGroupModel.fields[3].attname == "state";
  }

  lemma AdGroupModelSnakeNames2()
    ensures forall i :: 4 <= i < 6 ==> SnakeName(AdGroupModel.fields[i].attname) && AdGroupModel.fields[i].attname !in AdGroupApiOnly
  {
    StatusSnake();
    ServingStatusSnake();
    assert AdGroupModel.fields[4].attname == "status";
    assert AdGroupModel.fields[5].attname == "serving_status";
  }

  lemma AdGroupModelSnakeNames3()
    ensures forall i :: 6 <= i < 7 ==> SnakeName(AdGroupModel.fields[i].attname) && AdGroupModel.fields[i].attname !in AdGroupApiOnly
  {
    RegionsSnake();
    assert AdGroupModel.fields[6].attname == "regions";
  }

  lemma AdGroupModelDistinctLow()
    ensures DistinctAttnames(AdGroupModel.fields[..3])
  {
  }

  lemma AdGroupModelDistinctHigh()
    ensures DistinctAttnames(AdGroupModel.fields[3..])
  {
  }

  lemma AdGroupModelDistinctAcross()
    ensures forall i, j :: 0 <= i < 3 <= j < 7 ==> AdGroupModel.fields[i].attname != AdGroupModel.fields[j].attname
  {
  }

  lemma AdGroupModelDistinctNames()
    ensures DistinctAttnames(AdGroupModel.fields)
  {
    AdGroupModelDistinctLow();
    AdGroupModelDistinctHigh();
    AdGroupModelDistinctAcross();
    DistinctAttnamesJoin(AdGroupModel.fields, 3);
  }

  lemma AdGroupApiOnlyNames()
    ensures forall n :: n in AdGroupApiOnly ==> n !in FieldNames(AdGroupModel)
  {
    AdGroupModelSnakeNames0();
    AdGroupModelSnakeNames1();
    AdGroupModelSnakeNames2();
    AdGroupModelSnakeNames3();
  }

  lemma AdGroupModelWellFormed()
    ensures WellFormed(AdGroupModel)
  {
    AdGroupModelSnakeNames0();
    AdGroupModelSnakeNames1();
    AdGroupModelSnakeNames2();
    AdGroupModelSnakeNames3();
    AdGroupModelDistinctNames();
  }

  lemma KeywordModelSnakeNames0()
    ensures forall i :: 0 <= i < 2 ==> SnakeName(KeywordModel.fields[i].attname) && KeywordModel.fields[i].attname !in KeywordApiOnly
  {
    IdSnake();
    AdGroupIdSnake();
    assert KeywordModel.fields[0].attname == "id";
    assert KeywordModel.fields[1].attname == "ad_group_id";
  }

  lemma KeywordModelSnakeNames1()
    ensures forall i :: 2 <= i < 4 ==> SnakeName(KeywordModel.fields[i].attname) && KeywordModel.fields[i].attname !in KeywordApiOnly
  {
    CriterionPtrIdSnake();
    TextSnake();
    assert KeywordModel.fields[2].attname == "criterion_ptr_id";
    assert KeywordModel.fields[3].attname == "text";
  }

  lemma KeywordModelSnakeNames2()
    ensures forall i :: 4 <= i < 6 ==> SnakeName(KeywordModel.fields[i].attname) && KeywordModel.fields[i].attname !in KeywordApiOnly
  {
    BidSnake();
    ContextBidSnake();
    assert KeywordModel.fields[4].attname == "bid";
    assert KeywordModel.fields[5].attname == "context_bid";
  }

  lemma KeywordModelSnakeNames3()
    ensures forall i :: 6 <= i < 8 ==> SnakeName(KeywordModel.fields[i].attname) && KeywordModel.fields[i].attname !in KeywordApiOnly
  {
    StrategyPrioritySnake();
    UserParam1Snake();
    assert KeywordModel.fields[6].attname == "strategy_priority";
    assert KeywordModel.fields[7].attname == "user_param1";
  }

  lemma KeywordModelSnakeNames4()
    ensures forall i :: 8 <= i < 10 ==> SnakeName(KeywordModel.fields[i].attname) && KeywordModel.fields[i].attname !in KeywordApiOnly
  {
    UserParam2Snake();
    StateSnake();
    assert KeywordModel.fields[8].attname == "user_param2";
    assert KeywordModel.fields[9].attname == "state";
  }

  lemma KeywordModelSnakeNames5()
    ensures forall i :: 10 <= i < 12 ==> SnakeName(KeywordModel.fields[i].attname) && KeywordModel.fields[i].attname !in KeywordApiOnly
  {
    StatusSnake();
    ServingStatusSnake();
    assert KeywordModel.fields[10].attname == "status";
    assert KeywordModel.fields[11].attname == "serving_status";
  }

  lemma KeywordModelDistinctLow()
    ensures DistinctAttnames(KeywordModel.fields[..6])
  {
  }

  lemma KeywordModelDistinctHigh()
    ensures DistinctAttnames(KeywordModel.fields[6..])
  {
  }

  lemma KeywordModelDistinctAcross()
    ensures forall i, j :: 0 <= i < 6 <= j < 12 ==> KeywordModel.fields[i].attname != KeywordModel.fields[j].attname
  {
  }

  lemma KeywordModelDistinctNames()
    ensures DistinctAttnames(KeywordModel.fields)
  {
    KeywordModelDistinctLow();
    KeywordModelDistinctHigh();
    KeywordModelDistinctAcross();
    DistinctAttnamesJoin(KeywordModel.fields, 6);
  }

  lemma KeywordApiOnlyNames()
    ensures forall n :: n in KeywordApiOnly ==> n !in FieldNames(KeywordModel)
  {
    KeywordModelSnakeNames0();
    KeywordModelSnakeNames1();
    KeywordModelSnakeNames2();
    KeywordModelSnakeNames3();
    KeywordModelSnakeNames4();
    KeywordModelSnakeNames5();
  }

  lemma KeywordModelWellFormed()
    ensures WellFormed(KeywordModel)
  {
    KeywordModelSnakeNames0();
    KeywordModelSnakeNames1();
    KeywordModelSnakeNames2();
    KeywordModelSnakeNames3();
    KeywordModelSnakeNames4();
    KeywordModelSnakeNames5();
    KeywordModelDistinctNames();
  }

  lemma TextAdModelSnakeNames0()
    ensures forall i :: 0 <= i < 2 ==> SnakeName(TextAdModel.fields[i].attname) && TextAdModel.fields[i].attname !in TextAdApiOnly
  {
    IdSnake();
    AdGroupIdSnake();
    assert TextAdModel.fields[0].attname == "id";
    assert TextAdModel.fields[1].attname == "ad_group_id";
  }

  lemma TextAdModelSnakeNames1()
    ensures forall i :: 2 <= i < 4 ==> SnakeName(TextAdModel.fields[i].attname) && TextAdModel.fields[i].attname !in TextAdApiOnly
  {
    StateSnake();
    StatusSnake();
    assert TextAdModel.fields[2].attname == "state";
    assert TextAdModel.fields[3].attname == "status";
  }

  lemma TextAdModelSnakeNames2()
    ensures forall i :: 4 <= i < 6 ==> SnakeName(TextAdModel.fields[i].attname) && TextAdModel.fields[i].attname !in TextAdApiOnly
  {
    StatusClarificationSnake();
    TitleSnake();
    assert TextAdModel.fields[4].attname == "status_clarification";
    assert TextAdModel.fields[5].attname == "title";
  }

  lemma TextAdModelSnakeNames3()
    ensures forall i :: 6 <= i < 8 ==> SnakeName(TextAdModel.fields[i].attname) && TextAdModel.fields[i].attname !in TextAdApiOnly
  {
    Title2Snake();
    TextSnake();
    assert TextAdModel.fields[6].attname == "title2";
    assert TextAdModel.fields[7].attname == "text";
  }

  lemma TextAdModelSnakeNames4()
    ensures forall i :: 8 <= i < 10 ==> SnakeName(TextAdModel.fields[i].attname) && TextAdModel.fields[i].attname !in TextAdApiOnly
  {
    HrefSnake();
    MobileSnake();
    assert TextAdModel.fields[8].attname == "href";
    assert TextAdModel.fields[9].attname == "mobile";
  }

  lemma TextAdModelSnakeNames5()
    ensures forall i :: 10 <= i < 12 ==> SnakeName(TextAdModel.fields[i].attname) && TextAdModel.fields[i].attname !in TextAdApiOnly
  {
    DisplayDomainSnake();
    DisplayUrlPathSnake();
    assert TextAdModel.fields[10].attname == "display_domain";
    assert TextAdModel.fields[11].attname == "display_url_path";
  }

  lemma TextAdModelSnakeNames6()
    ensures forall i :: 12 <= i < 14 ==> SnakeName(TextAdModel.fields[i].attname) && TextAdModel.fields[i].attname !in TextAdApiOnly
  {
    VCardIdSnake();
    AdImageHashSnake();
    assert TextAdModel.fields[12].attname == "v_card_id";
    assert TextAdModel.fields[13].attname == "ad_image_hash";
  }

  lemma TextAdModelDistinctLow()
    ensures DistinctAttnames(TextAdModel.fields[..7])
  {
  }

  lemma TextAdModelDistinctHigh()
    ensures DistinctAttnames(TextAdModel.fields[7..])
  {
  }

  lemma TextAdModelDistinctAcross()
    ensures forall i, j :: 0 <= i < 7 <= j < 14 ==> TextAdModel.fields[i].attname != TextAdModel.fields[j].attname
  {
  }

  lemma TextAdModelDistinctNames()
    ensures DistinctAttnames(TextAdModel.fields)
  {
    TextAdModelDistinctLow();
    TextAdModelDistinctHigh();
    TextAdModelDistinctAcross();
    DistinctAttnamesJoin(TextAdModel.fields, 7);
  }

  lemma TextAdApiOnlyNames()
    ensures forall n :: n in TextAdApiOnly ==> n !in FieldNames(TextAdModel)
  {
    TextAdModelSnakeNames0();
    TextAdModelSnakeNames1();
    TextAdModelSnakeNames2();
    TextAdModelSnakeNames3();
    TextAdModelSnakeNames4();
    TextAdModelSnakeNames5();
    TextAdModelSnakeNames6();
  }

  lemma TextAdModelWellFormed()
    ensures WellFormed(TextAdModel)
  {
    TextAdModelSnakeNames0();
    TextAdModelSnakeNames1();
    TextAdModelSnakeNames2();
    TextAdModelSnakeNames3();
    TextAdModelSnakeNames4();
    TextAdModelSnakeNames5();
    TextAdModelSnakeNames6();
    TextAdModelDistinctNames();
  }

  lemma DirectStatsModelSnakeNames0()
    ensures forall i :: 0 <= i < 2 ==> SnakeName(DirectStatsModel.fields[i].attname)
  {
    IdSnake();
    DateSnake();
    assert DirectStatsModel.fields[0].attname == "id";
    assert DirectStatsModel.fields[1].attname == "date";
  }

  lemma DirectStatsModelSnakeNames1()
    ensures forall i :: 2 <= i < 4 ==> SnakeName(DirectStatsModel.fields[i].attname)
  {
    ShowsSnake();
    ClicksSnake();
    assert DirectStatsModel.fields[2].attname == "shows";
    assert DirectStatsModel.fields[3].attname == "clicks";
  }

  lemma DirectStatsModelSnakeNames2()
    ensures forall i :: 4 <= i < 6 ==> SnakeName(DirectStatsModel.fields[i].attname)
  {
    RegionIdSnake();
    DeviceSnake();
    assert DirectStatsModel.fields[4].attname == "region_id";
    assert DirectStatsModel.fields[5].attname == "device";
  }

  lemma DirectStatsModelSnakeNames3()
    ensures forall i :: 6 <= i < 8 ==> SnakeName(DirectStatsModel.fields[i].attname)
  {
    CampaignIdSnake();
    GroupIdSnake();
    assert DirectStatsModel.fields[6].attname == "campaign_id";
    assert DirectStatsModel.fields[7].attname == "group_id";
  }

  lemma DirectStatsModelSnakeNames4()
    ensures forall i :: 8 <= i < 10 ==> SnakeName(DirectStatsModel.fields[i].attname)
  {
    AdIdSnake();
    CriterionIdSnake();
    assert DirectStatsModel.fields[8].attname == "ad_id";
    assert DirectStatsModel.fields[9].attname == "criterion_id";
  }

  lemma DirectStatsModelSnakeNames5()
    ensures forall i :: 10 <= i < 12 ==> SnakeName(DirectStatsModel.fields[i].attname)
  {
    KeywordSnake();
    GenderSnake();
    assert DirectStatsModel.fields[10].attname == "keyword";
    assert DirectStatsModel.fields[11].attname == "gender";
  }

  lemma DirectStatsModelSnakeNames6()
    ensures forall i :: 12 <= i < 14 ==> SnakeName(DirectStatsModel.fields[i].attname)
  {
    AgeSnake();
    CarrierTypeSnake();
    assert DirectStatsModel.fields[12].attname == "age";
    assert DirectStatsModel.fields[13].attname == "carrier_type";
  }

  lemma DirectStatsModelSnakeNames7()
    ensures forall i :: 14 <= i < 16 ==> SnakeName(DirectStatsModel.fields[i].attname)
  {
    MobilePlatformSnake();
    SlotSnake();
    assert DirectStatsModel.fields[14].attname == "mobile_platform";
    assert DirectStatsModel.fields[15].attname == "slot";
  }

  lemma DirectStatsModelDistinctLow()
    ensures DistinctAttnames(DirectStatsModel.fields[..8])
  {
  }

  lemma DirectStatsModelDistinctHigh()
    ensures DistinctAttnames(DirectStatsModel.fields[8..])
  {
  }

  lemma DirectStatsModelDistinctAcross()
    ensures forall i, j :: 0 <= i < 8 <= j < 16 ==> DirectStatsModel.fields[i].attname != DirectStatsModel.fields[j].attname
  {
  }

  lemma DirectStatsModelDistinctNames()
    ensures DistinctAttnames(DirectStatsModel.fields)
  {
    DirectStatsModelDistinctLow();
    DirectStatsModelDistinctHigh();
    DirectStatsModelDistinctAcross();
    DistinctAttnamesJoin(DirectStatsModel.fields, 8);
  }

  lemma DirectStatsModelWellFormed()
    ensures WellFormed(DirectStatsModel)
  {
    DirectStatsModelSnakeNames0();
    DirectStatsModelSnakeNames1();
    DirectStatsModelSnakeNames2();
    DirectStatsModelSnakeNames3();
    DirectStatsModelSnakeNames4();
    DirectStatsModelSnakeNames5();
    DirectStatsModelSnakeNames6();
    DirectStatsModelSnakeNames7();
    DirectStatsModelDistinctNames();
  }


}
