/**
 * The `$set` paths of the three setting updates in
 * src/app/modules/setting/setting.service.ts, in the order they are written
 * there. Every path lies under `setting`; the global and store settings
 * write `setting.<field>` from `data.setting.<field>`, the store
 * customization writes `setting.<section>.<field>` from
 * `data.setting.<section>.<source field>`.
 */
module SettingPaths {

  /** setting.service.ts:178-219, less the two currency paths (189-190), which come from the currency lookup. */
  const GlobalSettingFields: seq<string> := [
    "number_of_image_per_product", "shop_name", "company_name",
    "address", "vat_number", "post_code",
    "contact", "email", "website",
    "receipt_size", "default_time_zone", "default_date_format",
    "default_product_image", "cod_status", "stripe_status",
    "fb_pixel_status", "google_login_status", "google_analytic_status",
    "stripe_key", "stripe_secret", "google_client_id",
    "google_secret_key", "google_analytic_key", "fb_pixel_key",
    "tawk_chat_status", "tawk_chat_property_id", "tawk_chat_widget_id",
    "meta_img", "favicon", "meta_title",
    "meta_description", "meta_keywords", "meta_url"]

  const DefaultCurrencyField := "default_currency"
  const DefaultCurrencySymbolField := "default_currency_symbol"

  /** setting.service.ts:252-292 */
  const StoreSettingFields: seq<string> := [
    "cod_status", "direct_bank_transfer_status", "account_details",
    "stripe_status", "paypal_status", "airwallex_status",
    "cinetpay_status", "razorpay_status", "fb_pixel_status",
    "google_login_status", "github_login_status", "facebook_login_status",
    "google_analytic_status", "stripe_key", "stripe_secret",
    "paypal_key", "paypal_secret", "airwallex_key",
    "airwallex_secret", "cinetpay_key", "cinetpay_secret",
    "razorpay_id", "razorpay_secret", "google_id",
    "google_secret", "github_id", "github_secret",
    "facebook_id", "facebook_secret", "nextauth_secret",
    "next_api_base_url", "google_analytic_key", "fb_pixel_key",
    "tawk_chat_status", "tawk_chat_property_id", "tawk_chat_widget_id"]

  /**
   * setting.service.ts:328-954: section, then target field, then the field
   * of the same input section it is read from. The source field differs from
   * the target at about_us.founder_two_sub and about_us.features_one_left_img.
   */
  const CustomizationFields: map<string, map<string, string>> := map[
    "navbar" := NavbarFields,
    "home" := HomeFields,
    "slider" := SliderFields,
    "checkout" := CheckoutFields,
    "footer" := FooterFields,
    "dashboard" := DashboardFields,
    "contact_us" := ContactUsFields,
    "privacy_policy" := PrivacyPolicyFields,
    "term_and_condition" := TermAndConditionFields,
    "faq" := FaqFields,
    "offers" := OffersFields,
    "slug" := SlugFields,
    "seo" := SeoFields,
    "about_us" := AboutUsFields]

  /** The `navbar` section. */
  const NavbarFields: map<string, string> := map[
    "help_text" := "help_text",
    "categories" := "categories",
    "about_us" := "about_us",
    "contact_us" := "contact_us",
    "offers" := "offers",
    "faq" := "faq",
    "privacy_policy" := "privacy_policy",
    "term_and_condition" := "term_and_condition",
    "pages" := "pages",
    "my_account" := "my_account",
    "login" := "login",
    "logout" := "logout",
    "checkout" := "checkout",
    "phone" := "phone",
    "logo" := "logo",
    "term_and_condition_status" := "term_and_condition_status",
    "privacy_policy_status" := "privacy_policy_status",
    "faq_status" := "faq_status",
    "categories_menu_status" := "categories_menu_status",
    "about_menu_status" := "about_menu_status",
    "contact_menu_status" := "contact_menu_status",
    "offers_menu_status" := "offers_menu_status"]

  /** The `home` section. */
  const HomeFields: map<string, string> := map[
    "coupon_status" := "coupon_status",
    "featured_status" := "featured_status",
    "daily_needs_status" := "daily_needs_status",
    "feature_promo_status" := "feature_promo_status",
    "slider_width_status" := "slider_width_status",
    "promotion_banner_status" := "promotion_banner_status",
    "delivery_status" := "delivery_status",
    "popular_products_status" := "popular_products_status",
    "discount_product_status" := "discount_product_status",
    "discount_coupon_code" := "discount_coupon_code",
    "place_holder_img" := "place_holder_img",
    "discount_title" := "discount_title",
    "promotion_title" := "promotion_title",
    "promotion_description" := "promotion_description",
    "promotion_button_name" := "promotion_button_name",
    "promotion_button_link" := "promotion_button_link",
    "feature_title" := "feature_title",
    "feature_description" := "feature_description",
    "feature_product_limit" := "feature_product_limit",
    "popular_title" := "popular_title",
    "popular_description" := "popular_description",
    "popular_product_limit" := "popular_product_limit",
    "quick_delivery_subtitle" := "quick_delivery_subtitle",
    "quick_delivery_title" := "quick_delivery_title",
    "quick_delivery_description" := "quick_delivery_description",
    "quick_delivery_button" := "quick_delivery_button",
    "quick_delivery_link" := "quick_delivery_link",
    "quick_delivery_img" := "quick_delivery_img",
    "latest_discount_title" := "latest_discount_title",
    "latest_discount_description" := "latest_discount_description",
    "latest_discount_product_limit" := "latest_discount_product_limit",
    "daily_need_title" := "daily_need_title",
    "daily_need_description" := "daily_need_description",
    "daily_need_app_link" := "daily_need_app_link",
    "daily_need_google_link" := "daily_need_google_link",
    "daily_need_img_left" := "daily_need_img_left",
    "daily_need_img_right" := "daily_need_img_right",
    "button1_img" := "button1_img",
    "button2_img" := "button2_img",
    "service_one_status" := "service_one_status",
    "service_two_status" := "service_two_status",
    "service_three_status" := "service_three_status",
    "service_four_status" := "service_four_status",
    "service_one_image" := "service_one_image",
    "service_two_image" := "service_two_image",
    "service_three_image" := "service_three_image",
    "service_four_image" := "service_four_image",
    "service_one_title" := "service_one_title",
    "service_two_title" := "service_two_title",
    "service_three_title" := "service_three_title",
    "service_four_title" := "service_four_title",
    "service_one_description" := "service_one_description",
    "service_two_description" := "service_two_description",
    "service_three_description" := "service_three_description",
    "service_four_description" := "service_four_description"]

  /** The `slider` section. */
  const SliderFields: map<string, string> := map[
    "left_right_arrow" := "left_right_arrow",
    "bottom_dots" := "bottom_dots",
    "both_slider" := "both_slider",
    "first_img" := "first_img",
    "first_title" := "first_title",
    "first_title_color" := "first_title_color",
    "first_description_color_one" := "first_description_color_one",
    "first_description_color_two" := "first_description_color_two",
    "first_description" := "first_description",
    "first_button" := "first_button",
    "first_link" := "first_link",
    "first_status" := "first_status",
    "second_img" := "second_img",
    "second_title" := "second_title",
    "second_title_color" := "second_title_color",
    "second_description_color_one" := "second_description_color_one",
    "second_description_color_two" := "second_description_color_two",
    "second_description" := "second_description",
    "second_button" := "second_button",
    "second_link" := "second_link",
    "second_status" := "second_status",
    "third_img" := "third_img",
    "third_title" := "third_title",
    "third_title_color" := "third_title_color",
    "third_description_color_one" := "third_description_color_one",
    "third_description_color_two" := "third_description_color_two",
    "third_description" := "third_description",
    "third_button" := "third_button",
    "third_link" := "third_link",
    "third_status" := "third_status",
    "four_img" := "four_img",
    "four_title" := "four_title",
    "four_title_color" := "four_title_color",
    "four_description_color_one" := "four_description_color_one",
    "four_description_color_two" := "four_description_color_two",
    "four_description" := "four_description",
    "four_button" := "four_button",
    "four_link" := "four_link",
    "four_status" := "four_status",
    "five_img" := "five_img",
    "five_title" := "five_title",
    "five_title_color" := "five_title_color",
    "five_description_color_one" := "five_description_color_one",
    "five_description_color_two" := "five_description_color_two",
    "five_description" := "five_description",
    "five_button" := "five_button",
    "five_link" := "five_link",
    "five_status" := "five_status",
    "banner_one_title" := "banner_one_title",
    "banner_one_title_color" := "banner_one_title_color",
    "banner_one_description" := "banner_one_description",
    "banner_one_description_color" := "banner_one_description_color",
    "banner_one_status" := "banner_one_status",
    "banner_one_image" := "banner_one_image",
    "banner_one_link" := "banner_one_link",
    "banner_two_title" := "banner_two_title",
    "banner_two_title_color" := "banner_two_title_color",
    "banner_two_description" := "banner_two_description",
    "banner_two_description_color" := "banner_two_description_color",
    "banner_two_status" := "banner_two_status",
    "banner_two_image" := "banner_two_image",
    "banner_two_link" := "banner_two_link"]

  /** The `checkout` section. */
  const CheckoutFields: map<string, string> := map[
    "personal_details" := "personal_details",
    "first_name" := "first_name",
    "last_name" := "last_name",
    "email_address" := "email_address",
    "checkout_phone" := "checkout_phone",
    "shipping_details" := "shipping_details",
    "street_address" := "street_address",
    "city" := "city",
    "country" := "country",
    "zip_code" := "zip_code",
    "shipping_cost" := "shipping_cost",
    "shipping_name_one" := "shipping_name_one",
    "shipping_one_desc" := "shipping_one_desc",
    "shipping_one_cost" := "shipping_one_cost",
    "shipping_name_two" := "shipping_name_two",
    "shipping_two_desc" := "shipping_two_desc",
    "shipping_two_cost" := "shipping_two_cost",
    "payment_method" := "payment_method",
    "order_summary" := "order_summary",
    "apply_button" := "apply_button",
    "continue_button" := "continue_button",
    "confirm_button" := "confirm_button",
    "sub_total" := "sub_total",
    "discount" := "discount",
    "total_cost" := "total_cost"]

  /** The `footer` section. */
  const FooterFields: map<string, string> := map[
    "payment_method_title" := "payment_method_title",
    "payment_method_description" := "payment_method_description",
    "promo_status" := "promo_status",
    "block1_status" := "block1_status",
    "block2_status" := "block2_status",
    "block3_status" := "block3_status",
    "block4_status" := "block4_status",
    "payment_method_status" := "payment_method_status",
    "bottom_contact_status" := "bottom_contact_status",
    "social_links_status" := "social_links_status",
    "shipping_card" := "shipping_card",
    "support_card" := "support_card",
    "payment_card" := "payment_card",
    "offer_card" := "offer_card",
    "block1_title" := "block1_title",
    "block1_sub_title1" := "block1_sub_title1",
    "block1_sub_link1" := "block1_sub_link1",
    "block1_sub_title2" := "block1_sub_title2",
    "block1_sub_link2" := "block1_sub_link2",
    "block1_sub_title3" := "block1_sub_title3",
    "block1_sub_link3" := "block1_sub_link3",
    "block1_sub_title4" := "block1_sub_title4",
    "block1_sub_link4" := "block1_sub_link4",
    "block2_title" := "block2_title",
    "block2_sub_title1" := "block2_sub_title1",
    "block2_sub_link1" := "block2_sub_link1",
    "block2_sub_title2" := "block2_sub_title2",
    "block2_sub_link2" := "block2_sub_link2",
    "block2_sub_title3" := "block2_sub_title3",
    "block2_sub_link3" := "block2_sub_link3",
    "block2_sub_title4" := "block2_sub_title4",
    "block2_sub_link4" := "block2_sub_link4",
    "block3_title" := "block3_title",
    "block3_sub_title1" := "block3_sub_title1",
    "block3_sub_link1" := "block3_sub_link1",
    "block3_sub_title2" := "block3_sub_title2",
    "block3_sub_link2" := "block3_sub_link2",
    "block3_sub_title3" := "block3_sub_title3",
    "block3_sub_link3" := "block3_sub_link3",
    "block3_sub_title4" := "block3_sub_title4",
    "block3_sub_link4" := "block3_sub_link4",
    "block4_logo" := "block4_logo",
    "block4_content" := "block4_content",
    "block4_address" := "block4_address",
    "block4_phone" := "block4_phone",
    "block4_email" := "block4_email",
    "social_links_title" := "social_links_title",
    "social_facebook" := "social_facebook",
    "social_youtube" := "social_youtube",
    "social_twitter" := "social_twitter",
    "social_pinterest" := "social_pinterest",
    "social_linkedin" := "social_linkedin",
    "social_whatsapp" := "social_whatsapp",
    "newsletter_status" := "newsletter_status",
    "newsletter_title" := "newsletter_title",
    "newsletter_description" := "newsletter_description",
    "payment_method_img" := "payment_method_img",
    "bottom_contact" := "bottom_contact",
    "bottom_working_hours" := "bottom_working_hours",
    "partner_logo" := "partner_logo",
    "bottom_copyright" := "bottom_copyright"]

  /** The `dashboard` section. */
  const DashboardFields: map<string, string> := map[
    "invoice_message_first" := "invoice_message_first",
    "invoice_message_last" := "invoice_message_last",
    "print_button" := "print_button",
    "download_button" := "download_button",
    "dashboard_title" := "dashboard_title",
    "total_order" := "total_order",
    "pending_order" := "pending_order",
    "processing_order" := "processing_order",
    "complete_order" := "complete_order",
    "recent_order" := "recent_order",
    "my_order" := "my_order",
    "update_profile" := "update_profile",
    "full_name" := "full_name",
    "address" := "address",
    "user_email" := "user_email",
    "user_phone" := "user_phone",
    "update_button" := "update_button",
    "current_password" := "current_password",
    "new_password" := "new_password",
    "change_password" := "change_password"]

  /** The `about_us` section. */
  const AboutUsFields: map<string, string> := map[
    "header_status" := "header_status",
    "content_left_status" := "content_left_status",
    "content_right_status" := "content_right_status",
    "content_middle_status" := "content_middle_status",
    "header_bg" := "header_bg",
    "content_right_img" := "content_right_img",
    "content_middle_Img" := "content_middle_Img",
    "founder_one_img" := "founder_one_img",
    "founder_two_img" := "founder_two_img",
    "founder_three_img" := "founder_three_img",
    "founder_four_img" := "founder_four_img",
    "founder_five_img" := "founder_five_img",
    "founder_six_img" := "founder_six_img",
    "title" := "title",
    "top_title" := "top_title",
    "top_description" := "top_description",
    "card_one_title" := "card_one_title",
    "card_one_sub" := "card_one_sub",
    "card_one_description" := "card_one_description",
    "card_two_title" := "card_two_title",
    "card_two_sub" := "card_two_sub",
    "card_two_description" := "card_two_description",
    "middle_description_one" := "middle_description_one",
    "middle_description_two" := "middle_description_two",
    "founder_title" := "founder_title",
    "founder_description" := "founder_description",
    "founder_one_name" := "founder_one_name",
    "founder_one_sub" := "founder_one_sub",
    "founder_two_name" := "founder_two_name",
    "founder_two_sub" := "founder_two_name",
    "founder_three_name" := "founder_three_name",
    "founder_three_sub" := "founder_three_sub",
    "founder_four_name" := "founder_four_name",
    "founder_four_sub" := "founder_four_sub",
    "founder_five_name" := "founder_five_name",
    "founder_five_sub" := "founder_five_sub",
    "founder_six_name" := "founder_six_name",
    "founder_six_sub" := "founder_six_sub",
    "middle_title" := "middle_title",
    "middle_subtitle" := "middle_subtitle",
    "features_one_left_status" := "features_one_left_status",
    "features_one_right_status" := "features_one_right_status",
    "features_two_left_status" := "features_two_left_status",
    "features_two_right_status" := "features_two_right_status",
    "features_one_left_img" := "features_one_left_image",
    "features_two_right_image" := "features_two_right_image",
    "middle_advice_one_title" := "middle_advice_one_title",
    "middle_advice_one_link" := "middle_advice_one_link",
    "middle_advice_two_title" := "middle_advice_two_title",
    "middle_advice_two_link" := "middle_advice_two_link",
    "middle_advice_three_title" := "middle_advice_three_title",
    "middle_advice_three_link" := "middle_advice_three_link",
    "features_one_title" := "features_one_title",
    "features_one_subtitle" := "features_one_subtitle",
    "features_one_description" := "features_one_description",
    "features_two_title" := "features_two_title",
    "features_two_subtitle" := "features_two_subtitle",
    "features_two_description" := "features_two_description",
    "founder_status" := "founder_status",
    "content_middle_img_one" := "content_middle_img_one",
    "content_middle_img_two" := "content_middle_img_two"]

  /** The `contact_us` section. */
  const ContactUsFields: map<string, string> := map[
    "header_status" := "header_status",
    "email_box_status" := "email_box_status",
    "call_box_status" := "call_box_status",
    "address_box_status" := "address_box_status",
    "store_hours_box_status" := "store_hours_box_status",
    "left_col_status" := "left_col_status",
    "form_status" := "form_status",
    "header_bg" := "header_bg",
    "left_col_img" := "left_col_img",
    "title" := "title",
    "email_box_title" := "email_box_title",
    "email_box_email" := "email_box_email",
    "email_box_text" := "email_box_text",
    "call_box_title" := "call_box_title",
    "call_box_phone" := "call_box_phone",
    "call_box_text" := "call_box_text",
    "address_box_title" := "address_box_title",
    "address_box_address_one" := "address_box_address_one",
    "address_box_address_two" := "address_box_address_two",
    "address_box_address_three" := "address_box_address_three",
    "store_hours_box_title" := "store_hours_box_title",
    "store_hours" := "store_hours",
    "form_title" := "form_title",
    "form_description" := "form_description"]

  /** The `privacy_policy` section. */
  const PrivacyPolicyFields: map<string, string> := map[
    "status" := "status",
    "header_bg" := "header_bg",
    "title" := "title",
    "description" := "description"]

  /** The `term_and_condition` section. */
  const TermAndConditionFields: map<string, string> := map[
    "status" := "status",
    "header_bg" := "header_bg",
    "title" := "title",
    "description" := "description"]

  /** The `faq` section. */
  const FaqFields: map<string, string> := map[
    "page_status" := "page_status",
    "leftcol_status" := "leftcol_status",
    "rightcol_status" := "rightcol_status",
    "header_bg" := "header_bg",
    "left_img" := "left_img",
    "title" := "title",
    "faq_one" := "faq_one",
    "description_one" := "description_one",
    "faq_two" := "faq_two",
    "description_two" := "description_two",
    "faq_three" := "faq_three",
    "description_three" := "description_three",
    "faq_four" := "faq_four",
    "description_four" := "description_four",
    "faq_five" := "faq_five",
    "description_five" := "description_five",
    "faq_six" := "faq_six",
    "description_six" := "description_six",
    "faq_seven" := "faq_seven",
    "description_seven" := "description_seven",
    "faq_eight" := "faq_eight",
    "description_eight" := "description_eight"]

  /** The `offers` section. */
  const OffersFields: map<string, string> := map[
    "header_status" := "header_status",
    "header_bg" := "header_bg",
    "title" := "title",
    "coupon_code" := "coupon_code"]

  /** The `slug` section. */
  const SlugFields: map<string, string> := map[
    "right_box_status" := "right_box_status",
    "card_description_one" := "card_description_one",
    "card_description_two" := "card_description_two",
    "card_description_three" := "card_description_three",
    "card_description_four" := "card_description_four",
    "card_description_five" := "card_description_five",
    "card_description_six" := "card_description_six",
    "card_description_seven" := "card_description_seven"]

  /** The `seo` section. */
  const SeoFields: map<string, string> := map[
    "meta_img" := "meta_img",
    "favicon" := "favicon",
    "meta_title" := "meta_title",
    "meta_description" := "meta_description",
    "meta_keywords" := "meta_keywords",
    "meta_url" := "meta_url"]
}
